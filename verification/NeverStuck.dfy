/**
 A checkpoint that has been requested runs to its end: when no worker has anything to read, to do
 or on its way, every worker runs its user threads and the script is written, unless a worker
 vanished that owed its image name.
 */
module NeverStuck {
  import opened CoordinatorState
  import BarrierBookkeeping
  import opened CheckpointProtocol
  import opened OneCheckpoint

  // ----- the invariant -----

  // Until DMT:SUSPEND is released everybody is asked; past DMT:WriteCkpt the release of it is on record; and
  // then some name is missing, and whoever is still there and has not delivered its own is going to.
  ghost predicate Driven(g: Config, s: System) {
    && (s.c.suspendMsgSent && !s.wrote && s.stage == 0 ==> forall id :: id in s.w ==> Asked(s.w[id]))
    && (s.stage > g.wr && s.c.suspendMsgSent ==> s.wrote)
    && (InWindow(s) ==> IdsOf(s.named) != s.released)
    && (InWindow(s) ==> forall id :: id in s.w && id in s.released && id !in IdsOf(s.named) ==> Owes(g, s.w[id]))
  }

  ghost predicate Inv2(g: Config, s: System) {
    Inv1(g, s) && (s.c.clients != [] ==> Driven(g, s))
  }

  // ----- one worker -----

  lemma ReceiveKeeps(g: Config, stage: nat, cl: Client, w: Worker)
    requires g.Valid() && Fits(g, stage, cl, w) && w.inbox != [] && Reads(w.pc)
    ensures stage == 0 && Asked(w) ==> Asked(ReceiveStep(g, w))
    ensures Owes(g, w) ==> Owes(g, ReceiveStep(g, w))
  {
  }

  lemma AdvanceKeeps(g: Config, stage: nat, cl: Client, w: Worker, unique: bool, ckpt: CkptFile)
    requires g.Valid() && Fits(g, stage, cl, w) && Acts(w.pc)
    ensures Asked(w) ==> Asked(AdvanceStep(g, w, unique, ckpt))
    ensures Owes(g, w) ==> Owes(g, AdvanceStep(g, w, unique, ckpt))
  {
    var w' := AdvanceStep(g, w, unique, ckpt);
    if i :| 0 <= i < |w.toCoord| && w.toCoord[i].Filename? { assert w'.toCoord[i].Filename?; }
    if w.pc == Stopped(g.wr + 1, false) { assert w'.toCoord[|w.toCoord|].Filename?; }
  }

  // Delivering anything but its name leaves a worker's debt.
  lemma DeliverKeeps(g: Config, w: Worker)
    requires w.toCoord != [] && !w.toCoord[0].Filename?
    ensures Asked(w) ==> Asked(w.(toCoord := w.toCoord[1..]))
    ensures Owes(g, w) ==> Owes(g, w.(toCoord := w.toCoord[1..]))
  {
    var w' := w.(toCoord := w.toCoord[1..]);
    if i :| 0 <= i < |w.toCoord| && w.toCoord[i].Filename? { assert w'.toCoord[i - 1].Filename?; }
  }

  lemma WorkerDriven(g: Config, s: System, id: nat, w: Worker)
    requires Driven(g, s) && id in s.w
    requires s.stage == 0 && Asked(s.w[id]) ==> Asked(w)
    requires Owes(g, s.w[id]) ==> Owes(g, w)
    ensures Driven(g, s.(w := s.w[id := w]))
  {
  }

  lemma RecordsFree(g: Config, s: System, c: Coord)
    requires Driven(g, s) && c.suspendMsgSent == s.c.suspendMsgSent
    ensures Driven(g, s.(c := c))
  {
  }

  // ----- steps -----

  lemma ArrivedOweNothing(g: Config, s: System)
    requires Core(g, s) && s.c.clients != [] && s.c.currentBarrier != "" && s.c.atBarrier == |s.c.clients|
    ensures forall id :: id in s.w ==> !Owes(g, s.w[id])
  {
    CountBounds(s.c.clients, s.c.currentBarrier);
    forall id | id in s.w ensures !Owes(g, s.w[id]) {
      var i :| 0 <= i < |s.c.clients| && s.c.clients[i].id == id;
      ArrivedShape(g, s.stage, s.c.clients[i], s.w[id]);
    }
  }

  lemma ReleaseDriven(g: Config, s: System)
    requires Core(g, s) && Single(g, s) && Driven(g, s) && s.c.clients != [] && s.c.currentBarrier != ""
    ensures Driven(g, Absorb(g, s, ReleaseBarrier(s.c).0, ReleaseBarrier(s.c).1))
  {
    var s' := Absorb(g, s, ReleaseBarrier(s.c).0, ReleaseBarrier(s.c).1);
    if s.c.atBarrier != |s.c.clients| {
      AbsorbNothing(g, s, s.c);
    } else {
      ReleasedWorkers(g, s, s');
      ReleasedHistory(g, s, s');
      ArrivedOweNothing(g, s);
      if s.stage == g.wr {
        assert IdsOf(s'.named) == {};
        assert HasClient(s.c.clients, s.c.clients[0].id);
        assert s.c.clients[0].id in s'.released;
      }
    }
  }

  lemma BarrierDriven(g: Config, s: System, id: nat)
    requires Inv2(g, s) && id in s.w && s.w[id].toCoord != [] && s.w[id].toCoord[0].Barrier?
    ensures Driven(g, DeliverStep(g, s, id))
  {
    assert HasClient(s.c.clients, id);
    BarrierCore(g, s, id);
    var w, msg := s.w[id], s.w[id].toCoord[0];
    DeliverFits(g, s.stage, Find(s.c.clients, id), w);
    DeliverClears(g, s.stage, Find(s.c.clients, id), w);
    DeliverKeeps(g, w);
    WorkerSingle(g, s, id, w.(toCoord := w.toCoord[1..]));
    WorkerDriven(g, s, id, w.(toCoord := w.toCoord[1..]));
    var c := BarrierBookkeeping.Arrived(s.c, Find(s.c.clients, id).(state := msg.state, barrier := msg.name));
    RecordsDoNotMatter(g, Taken(s, id), c);
    RecordsFree(g, Taken(s, id), c);
    var s1 := Taken(s, id).(c := c);
    assert c.clients != [] by { assert HasClient(c.clients, id); }
    ReleaseDriven(g, s1);
    AbsorbSame(g, Taken(s, id), s1, ReleaseBarrier(c).0, ReleaseBarrier(c).1);
  }

  lemma ResumingDriven(g: Config, s: System, id: nat)
    requires Inv2(g, s) && id in s.w && s.w[id].toCoord != [] && s.w[id].toCoord[0].Resuming?
    ensures Driven(g, DeliverStep(g, s, id))
  {
    assert HasClient(s.c.clients, id);
    ResumingCore(g, s, id);
    var w := s.w[id];
    DeliverKeeps(g, w);
    WorkerDriven(g, s, id, w.(toCoord := w.toCoord[1..]));
    RecordsFree(g, Taken(s, id), OnResuming(s.c, id, RUNNING));
    AbsorbNothing(g, Taken(s, id), OnResuming(s.c, id, RUNNING));
  }

  lemma FilenameDriven(g: Config, s: System, id: nat)
    requires Inv2(g, s) && id in s.w && s.w[id].toCoord != [] && s.w[id].toCoord[0].Filename?
    ensures Driven(g, DeliverStep(g, s, id))
  {
    assert HasClient(s.c.clients, id);
    FilenameShape(g, s, id);
    OneMoreName(g, s, id, s.w[id].toCoord[0].ckpt);
    var s' := DeliverStep(g, s, id);
    forall k | InWindow(s') && k in s'.w && k in s'.released && k !in IdsOf(s'.named) ensures Owes(g, s'.w[k]) {
      assert k != id && k in s.w && Owes(g, s.w[k]);
    }
  }

  lemma DropDriven(g: Config, s: System, id: nat)
    requires Inv2(g, s) && id in s.w
    ensures Driven(g, Absorb(g, s, OnDisconnect(s.c, id).0, OnDisconnect(s.c, id).1))
  {
    assert HasClient(s.c.clients, id);
    var s1 := Gone(s, id);
    GoneWired(g, s, id);
    GoneSingle(g, s, id);
    var (c, sends) := OnDisconnect(s.c, id);
    DisconnectCoord(s.c, id);
    AbsorbSame(g, s, s1, c, sends);
    assert Driven(g, s1);
    if s1.c.clients == [] || s.c.currentBarrier == "" {
      AbsorbNothing(g, s1, c);
      RecordsFree(g, s1, c);
    } else {
      GoneCore(g, s, id);
      ReleaseDriven(g, s1);
    }
  }

  lemma AskedByRequest(w: Worker)
    ensures Asked(w.(inbox := w.inbox + [DoCheckpoint]))
  {
    assert (w.inbox + [DoCheckpoint])[|w.inbox|].DoCheckpoint?;
  }

  lemma RequestAsks(g: Config, s: System, s': System)
    requires Inv(g, s) && MayStart(s.c) && s' == Absorb(g, s, StartCheckpoint(s.c).0, StartCheckpoint(s.c).1)
    ensures forall id :: id in s'.w ==> Asked(s'.w[id])
    ensures s'.c.suspendMsgSent && !s'.wrote && s'.stage == s.stage
  {
    forall id | id in s'.w ensures Asked(s'.w[id]) {
      AskedByRequest(s.w[id]);
    }
  }

  lemma RequestDriven(g: Config, s: System)
    requires Inv2(g, s) && s.c.clients != []
    ensures Driven(g, Absorb(g, s, StartCheckpoint(s.c).0, StartCheckpoint(s.c).1))
  {
    if MayStart(s.c) {
      RequestAsks(g, s, Absorb(g, s, StartCheckpoint(s.c).0, StartCheckpoint(s.c).1));
      MinStateIsMinimum(s.c.clients);
      RunningShape(g, s.stage, s.c.clients[0], s.w[s.c.clients[0].id]);
    } else {
      AbsorbNothing(g, s, s.c);
    }
  }

  lemma JoinDriven(g: Config, s: System, e: Event)
    requires Inv2(g, s) && IsJoin(e) && Enabled(s, e) && OutsideWindow(s, e)
    ensures Step(g, s, e).c.clients != [] ==> Driven(g, Step(g, s, e))
  {
    var s' := Step(g, s, e);
    var a := ConnectNew(s.c, e.id, e.hello);
    assert s' == Join(g, s, e.id, a);
    if s.c.clients != [] && a.Admitted? {
      StageOfJoin(g, s, e);
      if s.c.suspendMsgSent {
        assert s'.w[e.id].inbox[0].DoCheckpoint?;
        forall id | id in s'.w ensures Asked(s'.w[id]) {
          assert id != e.id ==> id in s.w && s'.w[id] == s.w[id];
        }
      }
    } else if s.c.clients != [] {
      JoinInv(g, s, e.id, e.hello);
    }
  }

  lemma DeliverDriven(g: Config, s: System, id: nat)
    requires Inv2(g, s) && id in s.w && s.w[id].toCoord != []
    ensures Driven(g, DeliverStep(g, s, id))
  {
    PlaceOf(g, s, id);
    DeliverFits(g, s.stage, Find(s.c.clients, id), s.w[id]);
    var msg := s.w[id].toCoord[0];
    if msg.Filename? {
      FilenameDriven(g, s, id);
    } else if msg.Barrier? {
      BarrierDriven(g, s, id);
    } else {
      ResumingDriven(g, s, id);
    }
  }

  lemma StepInv2(g: Config, s: System, e: Event)
    requires Inv2(g, s) && Enabled(s, e) && OutsideWindow(s, e)
    ensures Inv2(g, Step(g, s, e))
  {
    StepInv1(g, s, e);
    match e
    case Launch(_, _) => JoinDriven(g, s, e);
    case Fork(_, _, _) => JoinDriven(g, s, e);
    case Request => if s.c.clients != [] { RequestDriven(g, s); } else { AbsorbNothing(g, s, s.c); }
    case Deliver(id) => DeliverDriven(g, s, id);
    case Drop(id) => DropDriven(g, s, id);
    case Receive(id) =>
      PlaceOf(g, s, id);
      ReceiveKeeps(g, s.stage, Find(s.c.clients, id), s.w[id]);
      WorkerDriven(g, s, id, ReceiveStep(g, s.w[id]));
    case Advance(id, unique, ckpt) =>
      PlaceOf(g, s, id);
      AdvanceKeeps(g, s.stage, Find(s.c.clients, id), s.w[id], unique, ckpt);
      WorkerDriven(g, s, id, AdvanceStep(g, s.w[id], unique, ckpt));
  }

  lemma {:induction false} RunInv2(g: Config, s: System, es: seq<Event>)
    requires IsRun(g, s, es) && Outside(g, s, es) && Inv2(g, s)
    ensures Inv2(g, Final(g, s, es))
    decreases es
  {
    if es != [] {
      StepInv2(g, s, es[0]);
      RunInv2(g, Step(g, s, es[0]), es[1..]);
    }
  }

  // ----- nothing left to do -----

  // No worker has a message to read or to deliver, or a step of its own to make.
  ghost predicate Quiet(s: System) {
    forall id :: id in s.w ==>
      s.w[id].toCoord == [] && !Acts(s.w[id].pc) && !(s.w[id].inbox != [] && Reads(s.w[id].pc))
  }

  // Runs its user threads, with nothing in either direction.
  predicate AtEase(w: Worker) {
    w == Worker(Running, [], [])
  }

  // Waits at the next barrier to be released, and is recorded there.
  ghost predicate WaitsAt(g: Config, s: System, id: nat)
    requires s.stage < |g.script| && id in s.w && HasClient(s.c.clients, id)
  {
    s.w[id].pc.AtBarrier? && s.w[id].pc.i == s.stage && Find(s.c.clients, id).barrier == g.script[s.stage]
  }

  lemma QuietPlaces(g: Config, s: System, id: nat)
    requires Inv(g, s) && Quiet(s) && id in s.w
    ensures HasClient(s.c.clients, id)
    ensures (AtEase(s.w[id]) && s.stage == 0 && Find(s.c.clients, id).barrier == "") || WaitsAt(g, s, id)
  {
    PlaceOf(g, s, id);
  }

  lemma NobodyWaits(g: Config, s: System, id: nat)
    requires Inv2(g, s) && Quiet(s) && id in s.w
    ensures AtEase(s.w[id]) && s.stage == 0
  {
    QuietPlaces(g, s, id);
    if WaitsAt(g, s, id) {
      var i :| 0 <= i < |s.c.clients| && s.c.clients[i] == Find(s.c.clients, id);
      assert s.c.currentBarrier == g.script[s.stage] != "";
      var j :| 0 <= j < |s.c.clients| && s.c.clients[j].barrier != s.c.currentBarrier;
      Missing(g, s, j);
    }
  }

  // A client that has not arrived when all is quiet was not asked to.
  lemma Missing(g: Config, s: System, j: nat)
    requires Inv(g, s) && Quiet(s) && j < |s.c.clients| && s.c.clients[j].barrier != g.script[s.stage]
    ensures s.c.clients[j].id in s.w && !Asked(s.w[s.c.clients[j].id]) && s.stage == 0
  {
    var other := s.c.clients[j].id;
    assert HasClient(s.c.clients, other);
    assert Find(s.c.clients, other) == s.c.clients[j];
    QuietPlaces(g, s, other);
  }

  lemma AtRest(g: Config, s: System)
    requires Inv2(g, s) && Quiet(s)
    ensures forall id :: id in s.w ==> AtEase(s.w[id])
    ensures s.c.clients != [] && s.c.suspendMsgSent ==> exists v :: Doomed(s, v)
  {
    forall id | id in s.w ensures AtEase(s.w[id]) && s.stage == 0 {
      NobodyWaits(g, s, id);
    }
    if s.c.clients != [] && s.c.suspendMsgSent {
      var first := s.c.clients[0].id;
      assert HasClient(s.c.clients, first);
      NobodyWaits(g, s, first);
      assert !Asked(s.w[first]) && InWindow(s);
      var v :| v in s.released && v !in IdsOf(s.named);
      assert v in s.w ==> Owes(g, s.w[v]);
      assert Doomed(s, v);
    }
  }

  // When nothing is left to do, every worker runs and no request is open, unless a worker vanished between
  // DMT:WriteCkpt and its name.
  lemma ComesToRest(g: Config, es: seq<Event>)
    requires IsRun(g, START, es) && Outside(g, START, es) && Quiet(Final(g, START, es))
    ensures var s := Final(g, START, es);
            && (forall id :: id in s.w ==> AtEase(s.w[id]))
            && (s.c.clients != [] && s.c.suspendMsgSent ==> exists v :: Doomed(s, v))
  {
    RunInv2(g, START, es);
    AtRest(g, Final(g, START, es));
  }
}

/**
 The coordinator as the program keeps it: one object whose handlers update counters,
 barrier names, flags, file maps and the client list in place.
 */
module Coordinator {
  import opened CoordinatorState
  import opened CoordinatorRules

  // Stopped stands for an assertion of the coordinator's own.
  datatype Verdict = Accepted | Rejected | Stopped

  function VerdictOf(a: Admission): Verdict {
    match a
    case Admitted(_, _) => Accepted
    case Refused(_) => Rejected
    case Aborted => Stopped
  }

  class DmtcpCoordinator {
    var clients: seq<Client>
    var currentBarrier: string
    var prevBarrier: string
    var workersAtCurrentBarrier: int
    var numRestartPeers: int
    var workersRunningAndSuspendMsgSent: bool
    var numCkptWorkers: nat
    var numRestartFilenames: nat
    var uniqueCkptFilenames: bool
    var restartFilenames: HostFiles
    var rshCmdFileNames: HostFiles
    var sshCmdFileNames: HostFiles
    var compId: CompId
    var generation: nat
    ghost var restartPending: bool
    ghost var marks: seq<Mark>
    var outbox: seq<Send>

    // The record the handlers of CoordinatorState work on.
    ghost function Rep(): Coord
      reads this
    {
      Coord(clients, currentBarrier, prevBarrier, workersAtCurrentBarrier, numRestartPeers,
            workersRunningAndSuspendMsgSent, numCkptWorkers, numRestartFilenames, uniqueCkptFilenames,
            Files(restartFilenames, rshCmdFileNames, sshCmdFileNames), compId, generation, restartPending, marks)
    }

    constructor ()
      ensures Rep() == Coord([], "", "", 0, -1, false, 0, 0, false, NO_FILES, NO_COMP, 0, false, [])
      ensures outbox == []
    {
      clients, currentBarrier, prevBarrier, workersAtCurrentBarrier, numRestartPeers := [], "", "", 0, -1;
      workersRunningAndSuspendMsgSent, numCkptWorkers, numRestartFilenames := false, 0, 0;
      uniqueCkptFilenames, restartFilenames, rshCmdFileNames, sshCmdFileNames := false, map[], map[], map[];
      compId, generation, restartPending, marks, outbox := NO_COMP, 0, false, [], [];
    }

    // One pass that keeps a running minimum; "unanimous" compares each state with the minimum so far.
    method Status() returns (r: Status)
      ensures r == GetStatus(Rep())
      ensures r.numPeers == |clients| && (r.unanimous <==> Unanimous(Rep()))
      ensures forall i :: 0 <= i < |clients| ==> r.minimum.Rank() <= clients[i].state.Rank()
      ensures clients != [] ==> exists i :: 0 <= i < |clients| && clients[i].state == r.minimum
    {
      var min: WorkerState, unanimous := UNKNOWN, true;
      var i := 0;
      while i < |clients|
        invariant 0 <= i <= |clients|
        invariant min == if i == 0 then UNKNOWN else MinState(clients[..i])
        invariant unanimous <==> forall j :: 0 <= j < i ==> clients[j].state == min
      {
        var state := clients[i].state;
        MinStateAppend(clients[..i], clients[i]);
        assert clients[..i] + [clients[i]] == clients[..i + 1];
        unanimous := unanimous && (i == 0 || min == state);
        if i == 0 || state.Rank() < min.Rank() {
          if i > 0 { assert clients[0].state == min || !unanimous; RankInjective(state, min); }
          min := state;
        }
        i := i + 1;
      }
      assert clients[..|clients|] == clients;
      if clients != [] { MinStateIsMinimum(clients); }
      assert min == if clients == [] then UNKNOWN else MinState(clients);
      if min == RESTARTING && |clients| < numRestartPeers {
        unanimous := false;
      }
      r := CoordinatorState.Status(min, unanimous, |clients|);
      UnanimousExactly(Rep());
    }

    method Broadcast(msg: CoordMsg)
      modifies this`outbox, this`workersAtCurrentBarrier
      ensures outbox == old(outbox) + [ToAll(msg)] && workersAtCurrentBarrier == 0
    {
      outbox := outbox + [ToAll(msg)];
      workersAtCurrentBarrier := 0;
    }

    // The pending barrier becomes the previous one.
    method CloseBarrier(n: nat)
      modifies this`currentBarrier, this`prevBarrier, this`workersAtCurrentBarrier, this`numCkptWorkers,
          this`restartPending
      ensures Rep() == old(Rep()).(prevBarrier := old(currentBarrier), currentBarrier := "", atBarrier := 0,
                                   numCkptWorkers := n, restartPending := false)
    {
      prevBarrier := currentBarrier;
      currentBarrier := "";
      workersAtCurrentBarrier := 0;
      numCkptWorkers := n;
      restartPending := false;
    }

    method ReleaseBarrier()
      modifies this`currentBarrier, this`prevBarrier, this`workersAtCurrentBarrier, this`numCkptWorkers
      modifies this`restartPending, this`outbox
      ensures Rep() == CoordinatorState.ReleaseBarrier(old(Rep())).0
      ensures outbox == old(outbox) + CoordinatorState.ReleaseBarrier(old(Rep())).1
    {
      var status := Status();
      assert outbox == old(outbox) + [];
      if workersAtCurrentBarrier == status.numPeers && !(numRestartPeers > 0 && status.numPeers != numRestartPeers) {
        CloseBarrier(status.numPeers);
        Broadcast(Released(prevBarrier, status.numPeers));
      }
    }

    method IndexOf(id: nat) returns (k: nat)
      requires HasClient(clients, id)
      ensures k < |clients| && clients[k] == Find(clients, id)
      ensures forall c: Client :: c.id == id ==> Update(clients, c) == clients[k := c]
      ensures Remove(clients, id) == clients[..k] + clients[k + 1..]
    {
      k := 0;
      while clients[k].id != id
        invariant k < |clients|
        invariant forall j :: 0 <= j < k ==> clients[j].id != id
        decreases |clients| - k
      {
        k := k + 1;
      }
      FirstIndex(clients, id, k);
      forall c: Client | c.id == id ensures Update(clients, c) == clients[k := c] {
        FirstIndexUpdate(clients, c, k);
      }
    }

    method Delist(id: nat) returns (client: Client)
      requires HasClient(clients, id)
      modifies this`clients
      ensures client == Find(old(clients), id) && Rep() == old(Rep()).(clients := Remove(old(clients), id))
    {
      var k := IndexOf(id);
      client := clients[k];
      clients := clients[..k] + clients[k + 1..];
    }

    method OnDisconnect(id: nat)
      requires HasClient(clients, id)
      modifies this`clients, this`currentBarrier, this`prevBarrier, this`workersAtCurrentBarrier, this`numCkptWorkers
      modifies this`restartPending, this`outbox
      ensures Rep() == CoordinatorState.OnDisconnect(old(Rep()), id).0
      ensures outbox == old(outbox) + CoordinatorState.OnDisconnect(old(Rep()), id).1
    {
      var client := Delist(id);
      assert outbox == old(outbox) + [];
      if |clients| >= 1 && currentBarrier != "" {
        if client.barrier == currentBarrier {
          workersAtCurrentBarrier := workersAtCurrentBarrier - 1;
        }
        ReleaseBarrier();
      }
    }

    // A client's new record.
    method Record(client: Client)
      requires HasClient(clients, client.id)
      modifies this`clients
      ensures Rep() == old(Rep()).(clients := Update(old(clients), client))
    {
      var k := IndexOf(client.id);
      clients := clients[k := client];
    }

    // The client is at the current barrier, or opens it.
    method ProcessBarrier(id: nat, client: Client, barrier: string)
      requires HasClient(clients, id) && client == Find(clients, id)
      modifies this`clients, this`currentBarrier, this`prevBarrier, this`workersAtCurrentBarrier, this`numCkptWorkers
      modifies this`restartPending, this`outbox
      ensures Rep() == Arrive(old(Rep()), client, barrier).0
      ensures outbox == old(outbox) + Arrive(old(Rep()), client, barrier).1
    {
      Record(client.(barrier := barrier));
      currentBarrier := barrier;
      workersAtCurrentBarrier := workersAtCurrentBarrier + 1;
      ReleaseBarrier();
    }

    method OnBarrier(id: nat, state: WorkerState, barrier: string)
      requires HasClient(clients, id)
      modifies this`clients, this`currentBarrier, this`prevBarrier, this`workersAtCurrentBarrier, this`numCkptWorkers
      modifies this`restartPending, this`outbox
      ensures Rep() == CoordinatorState.OnBarrier(old(Rep()), id, state, barrier).0
      ensures outbox == old(outbox) + CoordinatorState.OnBarrier(old(Rep()), id, state, barrier).1
    {
      var k := IndexOf(id);
      var client := clients[k].(state := state);
      FindAfterUpdate(clients, client);
      clients := clients[k := client];
      if currentBarrier != "" && barrier != currentBarrier {
        OnDisconnect(id);
      } else if barrier != client.barrier {
        ProcessBarrier(id, client, barrier);
      } else {
        assert outbox == old(outbox) + [];
      }
    }

    method StoreFile(ckpt: CkptFile) returns (ok: bool)
      modifies this`restartFilenames, this`rshCmdFileNames, this`sshCmdFileNames
      ensures ok == KnownShell(ckpt.shell)
      ensures Rep() == (if ok then old(Rep()).(files := AddFile(old(Rep()).files, ckpt)) else old(Rep()))
    {
      ok := true;
      if ckpt.shell == "" {
        restartFilenames := Push(restartFilenames, ckpt.host, ckpt.file);
      } else if ckpt.shell == "rsh" {
        rshCmdFileNames := Push(rshCmdFileNames, ckpt.host, ckpt.file);
      } else if ckpt.shell == "ssh" {
        sshCmdFileNames := Push(sshCmdFileNames, ckpt.host, ckpt.file);
      } else {
        ok := false;
      }
    }

    method CountName()
      modifies this`numRestartFilenames, this`numCkptWorkers, this`workersRunningAndSuspendMsgSent, this`marks
      ensures Rep() == CoordinatorState.CountName(old(Rep()))
    {
      numRestartFilenames := numRestartFilenames + 1;
      if numRestartFilenames == numCkptWorkers {
        marks := marks + [Wrote(Files(restartFilenames, rshCmdFileNames, sshCmdFileNames))];
        numRestartFilenames := 0;
        numCkptWorkers := 0;
        workersRunningAndSuspendMsgSent := false;
      }
    }

    method NoteName(id: nat, unique: bool)
      requires HasClient(clients, id)
      modifies this`clients, this`uniqueCkptFilenames
      ensures Rep() == old(Rep()).(clients := Update(old(clients), Find(old(clients), id).(state := CHECKPOINTED)),
                                   uniqueCkptFilenames := old(uniqueCkptFilenames) || unique)
    {
      if unique {
        uniqueCkptFilenames := true;
      }
      var k := IndexOf(id);
      Record(clients[k].(state := CHECKPOINTED));
    }

    method RecordCkptFilename(id: nat, unique: bool, ckpt: CkptFile) returns (ok: bool)
      requires HasClient(clients, id)
      modifies this
      ensures ok <==> OnFilename(old(Rep()), id, unique, ckpt).Ok?
      ensures ok ==> Ok(Rep(), []) == OnFilename(old(Rep()), id, unique, ckpt) && outbox == old(outbox)
    {
      NoteName(id, unique);
      ok := StoreFile(ckpt);
      if !ok {
        return;
      }
      CountName();
    }

    method OnData(id: nat, msg: WorkerMsg) returns (ok: bool)
      requires HasClient(clients, id)
      modifies this
      ensures ok <==> CoordinatorState.OnData(old(Rep()), id, msg).Ok?
      ensures ok ==> Rep() == CoordinatorState.OnData(old(Rep()), id, msg).coord
                     && outbox == old(outbox) + CoordinatorState.OnData(old(Rep()), id, msg).sends
    {
      assert outbox == outbox + [];
      ok := true;
      match msg {
        case Barrier(state, name) => OnBarrier(id, state, name);
        case Filename(_, unique, ckpt) => ok := RecordCkptFilename(id, unique, ckpt);
        case Resuming(state) =>
          var k := IndexOf(id);
          clients := clients[k := clients[k].(state := state, barrier := "")];
        case Other(state) =>
          var k := IndexOf(id);
          clients := clients[k := clients[k].(state := state)];
      }
    }

    method ResetBarriers()
      modifies this`workersAtCurrentBarrier, this`prevBarrier, this`currentBarrier, this`restartPending
      ensures Rep() == old(Rep()).(atBarrier := 0, prevBarrier := "", currentBarrier := "", restartPending := false)
    {
      workersAtCurrentBarrier := 0;
      prevBarrier := "";
      currentBarrier := "";
      restartPending := false;
    }

    method InitializeComputation()
      modifies this`workersAtCurrentBarrier, this`prevBarrier, this`currentBarrier, this`restartPending
      modifies this`workersRunningAndSuspendMsgSent, this`compId, this`generation, this`numRestartPeers, this`marks
      ensures Rep() == CoordinatorState.InitializeComputation(old(Rep()))
    {
      workersRunningAndSuspendMsgSent := false;
      compId := NO_COMP;
      generation := 0;
      numRestartPeers := -1;
      marks := marks + [Reset];
      ResetBarriers();
    }

    // The client list grows by one.
    method Enlist(id: nat, hello: Hello)
      modifies this`clients
      ensures Rep() == Admit(old(Rep()), id, hello)
    {
      clients := clients + [Client(id, hello.state, "", hello)];
    }

    // What a computation begins with.
    method Found(comp: CompId, gen: nat, peers: int)
      modifies this`compId, this`generation, this`numRestartPeers
      ensures Rep() == old(Rep()).(comp := comp, generation := gen, numRestartPeers := peers)
    {
      compId := comp;
      generation := gen;
      numRestartPeers := peers;
    }

    // DMT_RESTART_WORKER.
    method OnConnectRestart(id: nat, hello: Hello) returns (result: Verdict)
      modifies this
      ensures var a := ConnectRestart(old(Rep()), id, hello);
              result == VerdictOf(a) && outbox == old(outbox) && (!a.Aborted? ==> Rep() == a.coord)
      ensures result == Accepted <==> old(AdmitsRestart(Rep(), hello))
      ensures result == Stopped <==> old(StopsRestart(Rep(), hello))
    {
      RestartExactly(Rep(), id, hello);
      if |clients| == 0 {
        InitializeComputation();
      }
      if hello.state != RESTARTING {
        return Rejected;
      }
      var status := Status();
      if compId == NO_COMP {
        if status.minimum != UNKNOWN {
          return Stopped;
        }
        Found(hello.comp, hello.gen, ToInt32(hello.peers));
        restartPending := true;
      } else if status.minimum != RESTARTING {
        return Rejected;
      } else if hello.comp != compId {
        return Rejected;
      } else if hello.peers != ToUint32(numRestartPeers) {
        return Rejected;
      }
      Enlist(id, hello);
      result := Accepted;
    }

    // DMT_NEW_WORKER.
    method OnConnectNew(id: nat, hello: Hello) returns (result: Verdict)
      modifies this
      ensures var a := ConnectNew(old(Rep()), id, hello);
              && result == VerdictOf(a) && (!a.Aborted? ==> Rep() == a.coord)
              && outbox == old(outbox) + (if a.Admitted? then a.sends else [])
      ensures result == Accepted <==> old(AdmitsNew(Rep(), hello))
      ensures result == Stopped <==> old(StopsNew(Rep(), hello))
    {
      NewExactly(Rep(), id, hello);
      assert outbox == outbox + [];
      if |clients| == 0 {
        InitializeComputation();
      }
      if hello.state != RUNNING && hello.state != UNKNOWN {
        return Rejected;
      }
      var status := Status();
      if workersRunningAndSuspendMsgSent {
        if status.numPeers == 0 || status.minimum == SUSPENDED {
          return Stopped;
        }
        Enlist(id, hello);
        outbox := outbox + [ToOne(id, DoCheckpoint)];
        return Accepted;
      } else if status.numPeers > 0 && status.minimum != RUNNING && status.minimum != UNKNOWN {
        return Rejected;
      } else if hello.comp != NO_COMP {
        return Rejected;
      }
      if compId == NO_COMP {
        Found(hello.newComp, hello.gen, -1);
      }
      Enlist(id, hello);
      result := Accepted;
    }

    method ClearFilenames()
      modifies this`uniqueCkptFilenames, this`numRestartFilenames, this`numRestartPeers
      modifies this`restartFilenames, this`rshCmdFileNames, this`sshCmdFileNames
      ensures Rep() == old(Rep()).(uniqueCkptFilenames := false, numRestartFilenames := 0, numRestartPeers := -1,
          files := NO_FILES)
    {
      uniqueCkptFilenames := false;
      numRestartFilenames := 0;
      numRestartPeers := -1;
      restartFilenames, rshCmdFileNames, sshCmdFileNames := map[], map[], map[];
    }

    method OpenRequest()
      modifies this`generation, this`marks, this`workersRunningAndSuspendMsgSent
      ensures Rep() == old(Rep()).(generation := old(generation) + 1, suspendMsgSent := true,
                                   marks := old(marks) + [Started(old(generation) + 1)])
    {
      generation := generation + 1;
      marks := marks + [Started(generation)];
      workersRunningAndSuspendMsgSent := true;
    }

    method StartCheckpoint() returns (started: bool)
      modifies this
      ensures started <==> old(Startable(Rep()))
      ensures Rep() == CoordinatorState.StartCheckpoint(old(Rep())).0
      ensures outbox == old(outbox) + CoordinatorState.StartCheckpoint(old(Rep())).1
    {
      StartsExactly(Rep());
      var status := Status();
      if status.minimum == RUNNING && status.unanimous && !workersRunningAndSuspendMsgSent {
        ClearFilenames();
        OpenRequest();
        Broadcast(DoCheckpoint);
        started := true;
      } else {
        assert outbox == old(outbox) + [];
        started := false;
      }
    }
  }

  lemma RankInjective(a: WorkerState, b: WorkerState)
    ensures a.Rank() == b.Rank() ==> a == b
  {
  }

  lemma {:induction false} MinStateAppend(cs: seq<Client>, c: Client)
    ensures MinState(cs + [c]) == if cs == [] || c.state.Rank() < MinState(cs).Rank() then c.state else MinState(cs)
  {
    if cs == [] {
      assert cs + [c] == [c];
    } else {
      assert (cs + [c])[1..] == cs[1..] + [c];
      MinStateAppend(cs[1..], c);
      if |cs| > 1 { RankInjective(cs[0].state, MinState(cs[1..])); }
    }
  }

  lemma {:induction false} FirstIndex(cs: seq<Client>, id: nat, k: nat)
    requires k < |cs| && cs[k].id == id
    requires forall j :: 0 <= j < k ==> cs[j].id != id
    ensures Find(cs, id) == cs[k]
    ensures Remove(cs, id) == cs[..k] + cs[k + 1..]
  {
    if k > 0 {
      assert cs[1..][k - 1] == cs[k];
      FirstIndex(cs[1..], id, k - 1);
    }
  }

  lemma {:induction false} FirstIndexUpdate(cs: seq<Client>, c: Client, k: nat)
    requires k < |cs| && cs[k].id == c.id
    requires forall j :: 0 <= j < k ==> cs[j].id != c.id
    ensures Update(cs, c) == cs[k := c]
  {
    if k > 0 {
      assert cs[1..][k - 1] == cs[k];
      FirstIndexUpdate(cs[1..], c, k - 1);
      assert cs[k := c] == [cs[0]] + cs[1..][k - 1 := c];
    }
  }

  lemma {:induction false} FindAfterUpdate(cs: seq<Client>, c: Client)
    requires HasClient(cs, c.id)
    ensures HasClient(Update(cs, c), c.id) && Find(Update(cs, c), c.id) == c
  {
    UpdateKeepsIds(cs, c);
    if cs[0].id != c.id {
      FindAfterUpdate(cs[1..], c);
      assert Update(cs, c)[1..] == Update(cs[1..], c);
    }
  }
}

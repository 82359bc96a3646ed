/**
 The coordinator on its own, under any sequence of connections, messages, disconnections
 and checkpoint requests.

 First result: the arrival counter always equals the number of connected clients that
 recorded the pending barrier, and no release is ever missed.  Second result: what the
 client list looks like at the first release after a restart began.
 */
module BarrierBookkeeping {
  import opened CoordinatorState

  datatype Event =
    | Connect(id: nat, hello: Hello)
    | Data(id: nat, msg: WorkerMsg)
    | Disconnect(id: nat)
    | CheckpointRequest

  predicate Enabled(c: Coord, e: Event) {
    match e
    case Connect(id, _) => !HasClient(c.clients, id)
    case Data(id, _) => HasClient(c.clients, id)
    case Disconnect(id) => HasClient(c.clients, id)
    case CheckpointRequest => true
  }

  function Connected(a: Admission): Outcome {
    match a
    case Admitted(c, sends) => Ok(c, sends)
    case Refused(c) => Ok(c, [])
    case Aborted => Abort
  }

  function Pair(r: (Coord, seq<Send>)): Outcome {
    Ok(r.0, r.1)
  }

  function Step(c: Coord, e: Event): Outcome
    requires Enabled(c, e)
  {
    match e
    case Connect(id, hello) =>
      Connected(if hello.restarting then ConnectRestart(c, id, hello) else ConnectNew(c, id, hello))
    case Data(id, msg) => OnData(c, id, msg)
    case Disconnect(id) => Pair(OnDisconnect(c, id))
    case CheckpointRequest => Pair(StartCheckpoint(c))
  }

  predicate IsRelease(sends: seq<Send>) {
    exists s :: s in sends && s.ToAll? && s.msg.Released?
  }

  const INITIAL := Coord([], "", "", 0, -1, false, 0, 0, false, NO_FILES, NO_COMP, 0, false, [])

  // What a reset does not clear: counters and names of the last checkpoint, and the log.  The next request
  // clears the names, and the next release sets the number of workers.
  function Leftover(c: Coord, new_: Coord): Coord {
    new_.(numCkptWorkers := c.numCkptWorkers, numRestartFilenames := c.numRestartFilenames,
           uniqueCkptFilenames := c.uniqueCkptFilenames, files := c.files, marks := c.marks + new_.marks)
  }

  // A coordinator without clients treats whoever connects as one that has just started would, whatever barrier,
  // request or restart was pending when its last client left.
  lemma ResetForgets(c: Coord, id: nat, hello: Hello)
    requires c.clients == []
    ensures var a, b := ConnectNew(c, id, hello), ConnectNew(INITIAL, id, hello);
            && a.Admitted? == b.Admitted? && a.Aborted? == b.Aborted?
            && (!a.Aborted? ==> a.coord == Leftover(c, b.coord)) && (a.Admitted? ==> a.sends == b.sends)
    ensures var a, b := ConnectRestart(c, id, hello), ConnectRestart(INITIAL, id, hello);
            && a.Admitted? == b.Admitted? && a.Aborted? == b.Aborted?
            && (!a.Aborted? ==> a.coord == Leftover(c, b.coord)) && (a.Admitted? ==> a.sends == b.sends)
  {
    assert c.marks + ([] + [Reset]) == c.marks + [Reset];
  }

  // ----- bookkeeping and progress -----

  predicate PeersMissing(c: Coord) {
    c.numRestartPeers > 0 && |c.clients| != c.numRestartPeers
  }

  ghost predicate Counted(c: Coord) {
    && UniqueIds(c.clients)
    && c.atBarrier == (if c.currentBarrier == "" then 0 else CountAt(c.clients, c.currentBarrier))
    && (forall i :: 0 <= i < |c.clients| && c.currentBarrier != "" && c.clients[i].barrier == c.currentBarrier ==>
          c.clients[i].state != RUNNING)
  }

  // A pending barrier is waiting for someone.
  ghost predicate Waiting(c: Coord) {
    c.currentBarrier != "" && !PeersMissing(c) ==>
      exists i :: 0 <= i < |c.clients| && c.clients[i].barrier != c.currentBarrier
  }

  ghost predicate Book(c: Coord) {
    UniqueIds(c.clients) && (c.clients != [] ==> Counted(c) && Waiting(c))
  }

  // What a worker that follows waitForBarrier never does: send an empty name, reach a barrier in
  // RUNNING state, open a barrier under a name some peer still has on record, or speak on while
  // it waits at the pending barrier.
  ghost predicate Polite(c: Coord, e: Event)
    requires Enabled(c, e)
  {
    e.Data? ==>
      var client := Find(c.clients, e.id);
      match e.msg
      case Barrier(state, name) =>
        && name != "" && state != RUNNING
        && (c.currentBarrier == "" && name != client.barrier
            ==> forall i :: 0 <= i < |c.clients| ==> c.clients[i].barrier != name)
      case Filename(_, _, _) => true
      case Resuming(_) => c.currentBarrier != "" ==> client.barrier != c.currentBarrier
      case Other(state) => c.currentBarrier != "" && client.barrier == c.currentBarrier ==> state != RUNNING
  }

  lemma ReleaseKeepsBook(c: Coord)
    requires Counted(c) && c.clients != []
    ensures Book(ReleaseBarrier(c).0)
  {
    CountBounds(c.clients, c.currentBarrier);
  }

  function Departed(c: Coord, id: nat): Coord
    requires HasClient(c.clients, id)
  {
    c.(clients := Remove(c.clients, id),
       atBarrier := if Find(c.clients, id).barrier == c.currentBarrier != "" then c.atBarrier - 1 else c.atBarrier)
  }

  lemma DepartedCounted(c: Coord, id: nat)
    requires HasClient(c.clients, id) && Counted(c)
    ensures Counted(Departed(c, id))
  {
    var rest := Remove(c.clients, id);
    RemoveAt(c.clients, id);
    CountRemove(c.clients, id, c.currentBarrier);
    forall i | 0 <= i < |rest| && c.currentBarrier != "" && rest[i].barrier == c.currentBarrier
      ensures rest[i].state != RUNNING
    {
      assert rest[i] in c.clients;
    }
  }

  lemma DisconnectKeepsBook(c: Coord, id: nat)
    requires HasClient(c.clients, id) && Counted(c)
    ensures Book(OnDisconnect(c, id).0)
  {
    DepartedCounted(c, id);
    var c1 := Departed(c, id);
    if c1.clients != [] && c.currentBarrier != "" {
      ReleaseKeepsBook(c1);
    }
  }

  // Changing a client's state or clearing a barrier it is not waiting at.
  lemma UpdateKeepsCounted(c: Coord, client: Client)
    requires Counted(c) && HasClient(c.clients, client.id)
    requires client.barrier == Find(c.clients, client.id).barrier
             || (client.barrier == "" && Find(c.clients, client.id).barrier != c.currentBarrier)
    requires c.currentBarrier != "" && client.barrier == c.currentBarrier ==> client.state != RUNNING
    ensures Counted(c.(clients := Update(c.clients, client)))
  {
    UpdateKeepsIds(c.clients, client);
    UpdateAt(c.clients, client);
    CountUpdate(c.clients, client, c.currentBarrier);
  }

  lemma UpdateKeepsWaiting(c: Coord, client: Client)
    requires Counted(c) && Waiting(c) && HasClient(c.clients, client.id)
    requires client.barrier == Find(c.clients, client.id).barrier || client.barrier == ""
    ensures Waiting(c.(clients := Update(c.clients, client)))
  {
    UpdateAt(c.clients, client);
    if c.currentBarrier != "" && !PeersMissing(c) {
      var i :| 0 <= i < |c.clients| && c.clients[i].barrier != c.currentBarrier;
      assert Update(c.clients, client)[i].barrier != c.currentBarrier;
    }
  }

  lemma ArriveCounted(c: Coord, client: Client, name: string)
    requires Counted(c) && HasClient(c.clients, client.id) && Find(c.clients, client.id) == client
    requires name != "" && client.barrier != name && client.state != RUNNING
    requires c.currentBarrier == "" || c.currentBarrier == name
    requires c.currentBarrier == "" ==> forall i :: 0 <= i < |c.clients| ==> c.clients[i].barrier != name
    ensures Counted(c.(clients := Update(c.clients, client.(barrier := name)), currentBarrier := name,
                       atBarrier := c.atBarrier + 1))
  {
    var there := client.(barrier := name);
    UpdateKeepsIds(c.clients, there);
    UpdateAt(c.clients, there);
    CountUpdate(c.clients, there, name);
    CountBounds(c.clients, name);
  }

  lemma FindAfterUpdate(cs: seq<Client>, client: Client)
    requires UniqueIds(cs) && HasClient(cs, client.id)
    ensures HasClient(Update(cs, client), client.id) && Find(Update(cs, client), client.id) == client
  {
    var i :| 0 <= i < |cs| && cs[i].id == client.id;
    UpdateKeepsIds(cs, client);
    UpdateAt(cs, client);
  }

  // The coordinator's record once a client has arrived, before any release.
  function Arrived(c: Coord, client: Client): Coord {
    c.(clients := Update(c.clients, client), currentBarrier := client.barrier, atBarrier := c.atBarrier + 1)
  }

  lemma UpdateTwice(cs: seq<Client>, a: Client, b: Client)
    requires UniqueIds(cs) && a.id == b.id
    ensures Update(Update(cs, a), b) == Update(cs, b)
  {
  }

  lemma BarrierArrives(c: Coord, id: nat, state: WorkerState, name: string)
    requires HasClient(c.clients, id) && Counted(c) && Polite(c, Data(id, Barrier(state, name)))
    requires c.currentBarrier == "" || c.currentBarrier == name
    requires Find(c.clients, id).barrier != name
    ensures var there := Find(c.clients, id).(state := state, barrier := name);
            Counted(Arrived(c, there)) && OnBarrier(c, id, state, name) == ReleaseBarrier(Arrived(c, there))
  {
    var mid := Find(c.clients, id).(state := state);
    var c1 := c.(clients := Update(c.clients, mid));
    UpdateKeepsCounted(c, mid);
    FindAfterUpdate(c.clients, mid);
    UpdateAt(c.clients, mid);
    ArriveCounted(c1, mid, name);
    UpdateTwice(c.clients, mid, mid.(barrier := name));
  }

  lemma BarrierKeepsBook(c: Coord, id: nat, state: WorkerState, name: string)
    requires HasClient(c.clients, id) && Book(c) && Polite(c, Data(id, Barrier(state, name)))
    ensures Book(OnBarrier(c, id, state, name).0)
  {
    var client := Find(c.clients, id).(state := state);
    UpdateKeepsIds(c.clients, client);
    UpdateKeepsCounted(c, client);
    if c.currentBarrier != "" && name != c.currentBarrier {
      DisconnectKeepsBook(c.(clients := Update(c.clients, client)), id);
    } else if name == client.barrier {
      UpdateKeepsWaiting(c, client);
    } else {
      BarrierArrives(c, id, state, name);
      UpdateKeepsIds(c.clients, client.(barrier := name));
      ReleaseKeepsBook(Arrived(c, client.(barrier := name)));
    }
  }

  lemma AdmitKeepsBook(c: Coord, id: nat, hello: Hello)
    requires Counted(c) && !HasClient(c.clients, id)
    ensures Book(Admit(c, id, hello))
  {
    var client := Client(id, hello.state, "", hello);
    var all := c.clients + [client];
    CountAppend(c.clients, client, c.currentBarrier);
    assert UniqueIds(all);
    assert all[|c.clients|].barrier == "";
  }

  lemma StartKeepsBook(c: Coord)
    requires Book(c)
    ensures Book(StartCheckpoint(c).0)
  {
    if MayStart(c) {
      CountBounds(c.clients, c.currentBarrier);
      if c.currentBarrier != "" {
        assert c.clients[0].state == RUNNING;
        assert c.clients[0].barrier != c.currentBarrier;
      }
    }
  }

  lemma ConnectionKeepsBook(c: Coord, id: nat, hello: Hello)
    requires Book(c) && !HasClient(c.clients, id) && Step(c, Connect(id, hello)).Ok?
    ensures Book(Step(c, Connect(id, hello)).coord)
  {
    var c1 := if c.clients == [] then InitializeComputation(c) else c;
    assert Counted(c1);
    AdmitKeepsBook(c1, id, hello);
    AdmitKeepsBook(c1.(comp := hello.comp, generation := hello.gen, numRestartPeers := ToInt32(hello.peers),
        restartPending := true), id, hello);
    AdmitKeepsBook(c1.(comp := hello.newComp, generation := hello.gen, numRestartPeers := -1), id, hello);
  }

  lemma UpdateKeepsBook(c: Coord, client: Client)
    requires Book(c) && HasClient(c.clients, client.id)
    requires client.barrier == Find(c.clients, client.id).barrier
             || (client.barrier == "" && Find(c.clients, client.id).barrier != c.currentBarrier)
    requires c.currentBarrier != "" && client.barrier == c.currentBarrier ==> client.state != RUNNING
    ensures Book(c.(clients := Update(c.clients, client)))
  {
    UpdateKeepsIds(c.clients, client);
    UpdateKeepsCounted(c, client);
    UpdateKeepsWaiting(c, client);
  }

  lemma NameKeepsBook(c: Coord, id: nat, unique: bool, ckpt: CkptFile)
    requires HasClient(c.clients, id) && Book(c) && OnFilename(c, id, unique, ckpt).Ok?
    ensures Book(OnFilename(c, id, unique, ckpt).coord)
  {
    var named := Find(c.clients, id).(state := CHECKPOINTED);
    UpdateKeepsBook(c, named);
    var c1, c2 := c.(clients := Update(c.clients, named)), OnFilename(c, id, unique, ckpt).coord;
    assert c2.clients == c1.clients && c2.currentBarrier == c1.currentBarrier && c2.atBarrier == c1.atBarrier;
    assert c2.numRestartPeers == c1.numRestartPeers;
  }

  lemma DataKeepsBook(c: Coord, id: nat, msg: WorkerMsg)
    requires HasClient(c.clients, id) && Book(c) && Polite(c, Data(id, msg)) && OnData(c, id, msg).Ok?
    ensures Book(OnData(c, id, msg).coord)
  {
    var was := Find(c.clients, id);
    match msg
    case Barrier(state, name) => BarrierKeepsBook(c, id, state, name);
    case Filename(_, unique, ckpt) => NameKeepsBook(c, id, unique, ckpt);
    case Resuming(state) => ResumingKeepsBook(c, was.(state := state, barrier := ""));
    case Other(state) => UpdateKeepsBook(c, was.(state := state));
  }

  lemma ResumingKeepsBook(c: Coord, client: Client)
    requires Book(c) && HasClient(c.clients, client.id) && client.barrier == ""
    requires c.currentBarrier != "" ==> Find(c.clients, client.id).barrier != c.currentBarrier
    ensures Book(c.(clients := Update(c.clients, client)))
  {
    UpdateKeepsIds(c.clients, client);
    UpdateKeepsCounted(c, client);
    UpdateKeepsWaiting(c, client);
  }

  lemma StepKeepsBook(c: Coord, e: Event)
    requires Enabled(c, e) && Book(c) && Polite(c, e) && Step(c, e).Ok?
    ensures Book(Step(c, e).coord)
  {
    match e
    case Connect(id, hello) => ConnectionKeepsBook(c, id, hello);
    case Data(id, msg) => DataKeepsBook(c, id, msg);
    case Disconnect(id) => DisconnectKeepsBook(c, id);
    case CheckpointRequest => StartKeepsBook(c);
  }

  // A run is a sequence of events, each enabled and polite where it happens.
  ghost predicate PoliteRun(c: Coord, es: seq<Event>)
    decreases es
  {
    es != [] ==>
      Enabled(c, es[0]) && Polite(c, es[0]) && Step(c, es[0]).Ok? && PoliteRun(Step(c, es[0]).coord, es[1..])
  }

  ghost function After(c: Coord, es: seq<Event>): Coord
    requires PoliteRun(c, es)
    decreases es
  {
    if es == [] then c else After(Step(c, es[0]).coord, es[1..])
  }

  lemma {:induction false} BookAlways(c: Coord, es: seq<Event>)
    requires Book(c) && PoliteRun(c, es)
    ensures Book(After(c, es))
    decreases es
  {
    if es != [] {
      StepKeepsBook(c, es[0]);
      BookAlways(Step(c, es[0]).coord, es[1..]);
    }
  }

  // The counter is exact, and a pending barrier with all restart peers present lacks at least one
  // connected client.
  ghost predicate CounterExact(c: Coord) {
    c.clients != [] ==>
      && c.atBarrier == (if c.currentBarrier == "" then 0 else CountAt(c.clients, c.currentBarrier))
      && (c.currentBarrier != "" && !PeersMissing(c) ==> c.atBarrier < |c.clients|)
  }

  // In every state of every polite run.
  lemma BookkeepingTheorem(es: seq<Event>)
    requires PoliteRun(INITIAL, es)
    ensures CounterExact(After(INITIAL, es))
  {
    BookAlways(INITIAL, es);
    CountBounds(After(INITIAL, es).clients, After(INITIAL, es).currentBarrier);
  }

  // ----- restart admission -----

  // Everybody connected is a restarting worker that presented this computation and this peer count.
  ghost predicate RestartGroup(c: Coord) {
    && !c.suspendMsgSent
    && (forall i :: 0 <= i < |c.clients| ==>
          var p := c.clients[i].presented;
          c.clients[i].state == RESTARTING && p.restarting && p.comp == c.comp
          && p.peers == c.numRestartPeers && 0 < p.peers < 0x8000_0000)
  }

  ghost predicate Restarting(c: Coord) {
    UniqueIds(c.clients) && (c.clients != [] ==> c.comp != NO_COMP && (c.restartPending ==> RestartGroup(c)))
  }

  // Until it is released a restarting worker stays in RESTARTING state; a restart carries the
  // computation id and the peer count that were written into the checkpoint images.
  ghost predicate PoliteRestart(c: Coord, e: Event)
    requires Enabled(c, e)
  {
    match e
    case Connect(_, hello) =>
      hello.newComp != NO_COMP && (hello.restarting ==> hello.comp != NO_COMP && 0 < hello.peers < 0x8000_0000)
    case Data(_, msg) => c.restartPending ==> msg.state == RESTARTING && !msg.Filename?
    case _ => true
  }

  lemma GroupUpdate(c: Coord, client: Client)
    requires Restarting(c) && HasClient(c.clients, client.id)
    requires c.restartPending ==> client.state == RESTARTING
    requires client.presented == Find(c.clients, client.id).presented
    ensures Restarting(c.(clients := Update(c.clients, client)))
  {
    UpdateKeepsIds(c.clients, client);
    UpdateAt(c.clients, client);
  }

  lemma GroupRemove(c: Coord, id: nat)
    requires Restarting(c) && HasClient(c.clients, id)
    ensures Restarting(c.(clients := Remove(c.clients, id)))
  {
    RemoveAt(c.clients, id);
    forall i | 0 <= i < |Remove(c.clients, id)| ensures Remove(c.clients, id)[i] in c.clients {
    }
  }

  // A release that ends a restart finds exactly the expected number of peers.
  ghost predicate EndsRestart(c: Coord) {
    && |c.clients| == c.numRestartPeers
    && (forall i :: 0 <= i < |c.clients| ==>
          var p := c.clients[i].presented;
          c.clients[i].state == RESTARTING && p.restarting && p.comp == c.comp && p.peers == c.numRestartPeers)
  }

  ghost predicate Good(pending: bool, r: (Coord, seq<Send>)) {
    Restarting(r.0) && (pending && IsRelease(r.1) ==> EndsRestart(r.0))
  }

  lemma ReleaseOfRestart(c: Coord)
    requires Restarting(c) && c.clients != []
    ensures Good(c.restartPending, ReleaseBarrier(c))
  {
    if c.restartPending {
      assert c.clients[0].presented.peers == c.numRestartPeers;
    }
  }

  lemma DisconnectOfRestart(c: Coord, id: nat)
    requires Restarting(c) && HasClient(c.clients, id)
    ensures Good(c.restartPending, OnDisconnect(c, id))
  {
    GroupRemove(c, id);
    var c1 := c.(clients := Remove(c.clients, id));
    if c1.clients != [] && c.currentBarrier != "" {
      ReleaseOfRestart(c1);
      ReleaseOfRestart(c1.(atBarrier := c.atBarrier - 1));
    }
  }

  lemma BarrierOfRestart(c: Coord, id: nat, state: WorkerState, name: string)
    requires HasClient(c.clients, id) && Restarting(c) && (c.restartPending ==> state == RESTARTING)
    ensures Good(c.restartPending, OnBarrier(c, id, state, name))
  {
    var client := Find(c.clients, id).(state := state);
    var c1 := c.(clients := Update(c.clients, client));
    GroupUpdate(c, client);
    FindAfterUpdate(c.clients, client);
    if c.currentBarrier != "" && name != c.currentBarrier {
      DisconnectOfRestart(c1, id);
    } else if name != client.barrier {
      GroupUpdate(c1, client.(barrier := name));
      UpdateKeepsIds(c1.clients, client.(barrier := name));
      ReleaseOfRestart(c1.(clients := Update(c1.clients, client.(barrier := name)), currentBarrier := name,
                           atBarrier := c.atBarrier + 1));
    }
  }

  lemma AdmitToGroup(c: Coord, id: nat, hello: Hello)
    requires UniqueIds(c.clients) && !HasClient(c.clients, id) && c.comp != NO_COMP
    requires c.restartPending ==>
               RestartGroup(c) && hello.restarting && hello.state == RESTARTING && hello.comp == c.comp
               && hello.peers == c.numRestartPeers && 0 < hello.peers < 0x8000_0000
    ensures Restarting(Admit(c, id, hello))
  {
  }

  lemma ConnectOfRestart(c: Coord, id: nat, hello: Hello)
    requires Restarting(c) && !HasClient(c.clients, id)
    requires PoliteRestart(c, Connect(id, hello)) && Step(c, Connect(id, hello)).Ok?
    ensures Restarting(Step(c, Connect(id, hello)).coord)
    ensures !IsRelease(Step(c, Connect(id, hello)).sends)
  {
    var c1 := if c.clients == [] then InitializeComputation(c) else c;
    if c1.clients != [] { MinStateIsMinimum(c1.clients); }
    if hello.restarting {
      if hello.state == RESTARTING {
        if c1.comp == NO_COMP {
          AdmitToGroup(c1.(comp := hello.comp, generation := hello.gen, numRestartPeers := ToInt32(hello.peers),
              restartPending := true), id, hello);
        } else if Step(c, Connect(id, hello)).coord != c1 {
          AdmitToGroup(c1, id, hello);
        }
      }
    } else if Step(c, Connect(id, hello)).coord != c1 {
      assert !c1.restartPending;
      AdmitToGroup(
        if c1.comp == NO_COMP then c1.(comp := hello.newComp, generation := hello.gen, numRestartPeers := -1) else c1,
        id, hello);
    }
  }

  lemma StepOfRestart(c: Coord, e: Event)
    requires Enabled(c, e) && Restarting(c) && PoliteRestart(c, e) && Step(c, e).Ok?
    ensures Good(c.restartPending, (Step(c, e).coord, Step(c, e).sends))
  {
    match e
    case Connect(id, hello) => ConnectOfRestart(c, id, hello);
    case Data(id, msg) =>
      if msg.Barrier? {
        BarrierOfRestart(c, id, msg.state, msg.name);
      } else {
        var was := Find(c.clients, id);
        GroupUpdate(c, if msg.Filename? then was.(state := CHECKPOINTED)
                       else if msg.Resuming? then was.(state := msg.state, barrier := "")
                       else was.(state := msg.state));
      }
    case Disconnect(id) => DisconnectOfRestart(c, id);
    case CheckpointRequest =>
      if MayStart(c) { MinStateIsMinimum(c.clients); }
  }

  ghost predicate RestartRun(c: Coord, es: seq<Event>)
    decreases es
  {
    es != [] ==>
      Enabled(c, es[0]) && PoliteRestart(c, es[0]) && Step(c, es[0]).Ok? && RestartRun(Step(c, es[0]).coord, es[1..])
  }

  ghost function AfterRestart(c: Coord, es: seq<Event>): Coord
    requires RestartRun(c, es)
    decreases es
  {
    if es == [] then c else AfterRestart(Step(c, es[0]).coord, es[1..])
  }

  lemma {:induction false} RestartingAlways(c: Coord, es: seq<Event>)
    requires Restarting(c) && RestartRun(c, es)
    ensures Restarting(AfterRestart(c, es))
    decreases es
  {
    if es != [] {
      StepOfRestart(c, es[0]);
      RestartingAlways(Step(c, es[0]).coord, es[1..]);
    }
  }

  // The first release after a restart begins: the connected clients are exactly numRestartPeers
  // restarting workers, all of this computation and with the same peer count.
  lemma RestartAdmissionTheorem(es: seq<Event>, e: Event)
    requires RestartRun(INITIAL, es)
    requires var c := AfterRestart(INITIAL, es);
             c.restartPending && Enabled(c, e) && PoliteRestart(c, e) && Step(c, e).Ok? && IsRelease(Step(c, e).sends)
    ensures EndsRestart(Step(AfterRestart(INITIAL, es), e).coord)
  {
    RestartingAlways(INITIAL, es);
    StepOfRestart(AfterRestart(INITIAL, es), e);
  }
}

/**
 The coordinator's data and its message handlers as functions of that data.

 Every handler returns the next state and the messages it sends, or `Abort` where the
 program's own assertion would stop the process.  The class in Coordinator.dfy updates
 fields in place and is proved to do exactly what these functions say.
 */
module CoordinatorState {

  datatype WorkerState =
    UNKNOWN | RUNNING | PRESUSPEND | SUSPENDED | CHECKPOINTING | CHECKPOINTED | RESTARTING
  {
    // The enumeration order of src/workerstate.h.
    function Rank(): (r: nat) {
      match this
      case UNKNOWN => 0
      case RUNNING => 1
      case PRESUSPEND => 2
      case SUSPENDED => 3
      case CHECKPOINTING => 4
      case CHECKPOINTED => 5
      case RESTARTING => 6
    }
  }

  // A UniquePid compares host, pid and time only; the generation is kept beside it.
  datatype CompId = CompId(host: nat, pid: int, time: nat)

  const NO_COMP := CompId(0, 0, 0)

  // What a client says when it connects: `comp` and `gen` are the computation it claims to belong to;
  // `newComp` is the id a fresh computation started by it would get.
  datatype Hello = Hello(state: WorkerState, comp: CompId, peers: nat, restarting: bool, newComp: CompId, gen: nat)

  datatype Client = Client(id: nat, state: WorkerState, barrier: string, presented: Hello)

  datatype CkptFile = CkptFile(shell: string, host: string, file: string)

  // From a worker; every message carries the worker's state.
  datatype WorkerMsg =
    | Barrier(state: WorkerState, name: string)
    | Filename(state: WorkerState, unique: bool, ckpt: CkptFile)
    | Resuming(state: WorkerState)
    | Other(state: WorkerState)

  // To a worker.
  datatype CoordMsg = DoCheckpoint | Released(name: string, peers: nat)

  datatype Send = ToAll(msg: CoordMsg) | ToOne(id: nat, msg: CoordMsg)

  type HostFiles = map<string, seq<string>>

  datatype Files = Files(plain: HostFiles, rsh: HostFiles, ssh: HostFiles)

  const NO_FILES := Files(map[], map[], map[])

  // What an outside observer of the coordinator can log.
  datatype Mark = Started(generation: nat) | Wrote(files: Files) | Reset

  datatype Coord = Coord(
    clients: seq<Client>,
    currentBarrier: string,
    prevBarrier: string,
    atBarrier: int,
    numRestartPeers: int,
    suspendMsgSent: bool,
    numCkptWorkers: nat,
    numRestartFilenames: nat,
    uniqueCkptFilenames: bool,
    files: Files,
    comp: CompId,
    generation: nat,
    restartPending: bool,
    marks: seq<Mark>)

  datatype Outcome = Ok(coord: Coord, sends: seq<Send>) | Abort

  datatype Status = Status(minimum: WorkerState, unanimous: bool, numPeers: nat)

  // ----- the client list -----

  ghost predicate UniqueIds(cs: seq<Client>) {
    forall i, j :: 0 <= i < j < |cs| ==> cs[i].id != cs[j].id
  }

  predicate HasClient(cs: seq<Client>, id: nat) {
    exists i :: 0 <= i < |cs| && cs[i].id == id
  }

  function Find(cs: seq<Client>, id: nat): (c: Client)
    requires HasClient(cs, id)
    ensures c.id == id && c in cs
  {
    if cs[0].id == id then cs[0] else Find(cs[1..], id)
  }

  function Update(cs: seq<Client>, c: Client): seq<Client> {
    if cs == [] then [] else if cs[0].id == c.id then [c] + cs[1..] else [cs[0]] + Update(cs[1..], c)
  }

  function Remove(cs: seq<Client>, id: nat): seq<Client> {
    if cs == [] then [] else if cs[0].id == id then cs[1..] else [cs[0]] + Remove(cs[1..], id)
  }

  // How many connected clients have recorded barrier `b`.
  function CountAt(cs: seq<Client>, b: string): nat {
    if cs == [] then 0 else (if cs[0].barrier == b then 1 else 0) + CountAt(cs[1..], b)
  }

  // ----- getStatus -----

  function MinState(cs: seq<Client>): WorkerState
    requires cs != []
  {
    if |cs| == 1 then cs[0].state
    else
      var m := MinState(cs[1..]);
      if cs[0].state.Rank() <= m.Rank() then cs[0].state else m
  }

  function GetStatus(c: Coord): Status {
    var minimum := if c.clients == [] then UNKNOWN else MinState(c.clients);
    var missing := minimum == RESTARTING && |c.clients| < c.numRestartPeers;
    Status(minimum, !missing && (forall i :: 0 <= i < |c.clients| ==> c.clients[i].state == minimum), |c.clients|)
  }

  // ----- barriers -----

  function ReleaseBarrier(c: Coord): (Coord, seq<Send>) {
    var n := |c.clients|;
    if c.atBarrier != n || (c.numRestartPeers > 0 && n != c.numRestartPeers) then (c, [])
    else
      (c.(prevBarrier := c.currentBarrier, currentBarrier := "", atBarrier := 0, numCkptWorkers := n,
          restartPending := false),
       [ToAll(Released(c.currentBarrier, n))])
  }

  function OnDisconnect(c: Coord, id: nat): (Coord, seq<Send>)
    requires HasClient(c.clients, id)
  {
    var gone := Find(c.clients, id);
    var c1 := c.(clients := Remove(c.clients, id));
    if c1.clients == [] || c.currentBarrier == "" then (c1, [])
    else ReleaseBarrier(if gone.barrier == c.currentBarrier then c1.(atBarrier := c.atBarrier - 1) else c1)
  }

  function Arrive(c: Coord, client: Client, name: string): (Coord, seq<Send>) {
    ReleaseBarrier(c.(clients := Update(c.clients, client.(barrier := name)),
                      currentBarrier := name,
                      atBarrier := c.atBarrier + 1))
  }

  function OnBarrier(c: Coord, id: nat, state: WorkerState, name: string): (Coord, seq<Send>)
    requires HasClient(c.clients, id)
  {
    var client := Find(c.clients, id).(state := state);
    var c1 := c.(clients := Update(c.clients, client));
    UpdateKeepsIds(c.clients, client);
    if c.currentBarrier != "" && name != c.currentBarrier then OnDisconnect(c1, id)
    else if name == client.barrier then (c1, [])
    else Arrive(c1, client, name)
  }

  // ----- checkpoint file names -----

  function Push(m: HostFiles, host: string, file: string): HostFiles {
    m[host := (if host in m then m[host] else []) + [file]]
  }

  function AddFile(f: Files, ckpt: CkptFile): Files {
    if ckpt.shell == "" then f.(plain := Push(f.plain, ckpt.host, ckpt.file))
    else if ckpt.shell == "rsh" then f.(rsh := Push(f.rsh, ckpt.host, ckpt.file))
    else f.(ssh := Push(f.ssh, ckpt.host, ckpt.file))
  }

  predicate KnownShell(shell: string) {
    shell == "" || shell == "rsh" || shell == "ssh"
  }

  // One more name; the last expected one writes the restart script.
  function CountName(c: Coord): Coord {
    if c.numRestartFilenames + 1 != c.numCkptWorkers then c.(numRestartFilenames := c.numRestartFilenames + 1)
    else
      c.(numRestartFilenames := 0, numCkptWorkers := 0, suspendMsgSent := false, marks := c.marks + [Wrote(c.files)])
  }

  function OnFilename(c: Coord, id: nat, unique: bool, ckpt: CkptFile): Outcome
    requires HasClient(c.clients, id)
  {
    if !KnownShell(ckpt.shell) then Abort
    else
      Ok(CountName(c.(clients := Update(c.clients, Find(c.clients, id).(state := CHECKPOINTED)),
                      uniqueCkptFilenames := c.uniqueCkptFilenames || unique,
                      files := AddFile(c.files, ckpt))), [])
  }

  function OnResuming(c: Coord, id: nat, state: WorkerState): Coord
    requires HasClient(c.clients, id)
  {
    c.(clients := Update(c.clients, Find(c.clients, id).(state := state, barrier := "")))
  }

  function OnData(c: Coord, id: nat, msg: WorkerMsg): Outcome
    requires HasClient(c.clients, id)
  {
    match msg
    case Barrier(state, name) => var (c', sends) := OnBarrier(c, id, state, name); Ok(c', sends)
    case Filename(_, unique, ckpt) => OnFilename(c, id, unique, ckpt)
    case Resuming(state) => Ok(OnResuming(c, id, state), [])
    case Other(state) => Ok(c.(clients := Update(c.clients, Find(c.clients, id).(state := state))), [])
  }

  // ----- connections -----

  function InitializeComputation(c: Coord): Coord {
    c.(suspendMsgSent := false, comp := NO_COMP, generation := 0, numRestartPeers := -1, atBarrier := 0,
       prevBarrier := "", currentBarrier := "", restartPending := false, marks := c.marks + [Reset])
  }

  // uint32_t to int and back.
  function ToInt32(n: nat): int {
    var m := n % 0x1_0000_0000;
    if m < 0x8000_0000 then m else m - 0x1_0000_0000
  }

  function ToUint32(n: int): nat {
    n % 0x1_0000_0000
  }

  // A refused connection leaves the client list as it was.
  datatype Admission = Admitted(coord: Coord, sends: seq<Send>) | Refused(coord: Coord) | Aborted

  function Admit(c: Coord, id: nat, hello: Hello): Coord {
    c.(clients := c.clients + [Client(id, hello.state, "", hello)])
  }

  function ConnectRestart(c0: Coord, id: nat, hello: Hello): Admission {
    var c := if c0.clients == [] then InitializeComputation(c0) else c0;
    if hello.state != RESTARTING then Refused(c)
    else if c.comp == NO_COMP then
      if GetStatus(c).minimum != UNKNOWN then Aborted
      else
        Admitted(Admit(c.(comp := hello.comp, generation := hello.gen, numRestartPeers := ToInt32(hello.peers),
                         restartPending := true),
                       id, hello), [])
    else if GetStatus(c).minimum != RESTARTING || hello.comp != c.comp
            || hello.peers != ToUint32(c.numRestartPeers) then Refused(c)
    else Admitted(Admit(c, id, hello), [])
  }

  function ConnectNew(c0: Coord, id: nat, hello: Hello): Admission {
    var c := if c0.clients == [] then InitializeComputation(c0) else c0;
    var s := GetStatus(c);
    if hello.state != RUNNING && hello.state != UNKNOWN then Refused(c)
    else if c.suspendMsgSent then
      if s.numPeers == 0 || s.minimum == SUSPENDED then Aborted
      else Admitted(Admit(c, id, hello), [ToOne(id, DoCheckpoint)])
    else if s.numPeers > 0 && s.minimum != RUNNING && s.minimum != UNKNOWN then Refused(c)
    else if hello.comp != NO_COMP then Refused(c)
    else
      var c1 :=
        if c.comp == NO_COMP then c.(comp := hello.newComp, generation := hello.gen, numRestartPeers := -1) else c;
      Admitted(Admit(c1, id, hello), [])
  }

  // ----- checkpoint request -----

  predicate MayStart(c: Coord) {
    var s := GetStatus(c);
    s.minimum == RUNNING && s.unanimous && !c.suspendMsgSent
  }

  function StartCheckpoint(c: Coord): (Coord, seq<Send>) {
    if MayStart(c) then
      (c.(uniqueCkptFilenames := false, numRestartFilenames := 0, numRestartPeers := -1, files := NO_FILES,
          generation := c.generation + 1, atBarrier := 0, suspendMsgSent := true,
          marks := c.marks + [Started(c.generation + 1)]),
       [ToAll(DoCheckpoint)])
    else (c, [])
  }

  // ----- facts about the client list -----

  lemma {:induction false} UpdateKeepsIds(cs: seq<Client>, c: Client)
    ensures |Update(cs, c)| == |cs|
    ensures forall i :: 0 <= i < |cs| ==> Update(cs, c)[i].id == cs[i].id
    ensures forall id :: HasClient(Update(cs, c), id) <==> HasClient(cs, id)
    ensures UniqueIds(cs) ==> UniqueIds(Update(cs, c))
  {
    if cs != [] && cs[0].id != c.id {
      UpdateKeepsIds(cs[1..], c);
    }
    forall id ensures HasClient(Update(cs, c), id) <==> HasClient(cs, id) {
      if i :| 0 <= i < |cs| && cs[i].id == id { assert Update(cs, c)[i].id == id; }
    }
  }

  // Exactly the entry with the given id changes.
  lemma {:induction false} UpdateAt(cs: seq<Client>, c: Client)
    requires UniqueIds(cs)
    ensures |Update(cs, c)| == |cs|
    ensures forall i :: 0 <= i < |cs| ==> Update(cs, c)[i] == if cs[i].id == c.id then c else cs[i]
  {
    if cs != [] && cs[0].id != c.id {
      UpdateAt(cs[1..], c);
    }
  }

  lemma {:induction false} RemoveAt(cs: seq<Client>, id: nat)
    requires UniqueIds(cs) && HasClient(cs, id)
    ensures |Remove(cs, id)| == |cs| - 1
    ensures forall x :: x in Remove(cs, id) <==> x in cs && x.id != id
    ensures UniqueIds(Remove(cs, id))
  {
    assert forall x :: x in cs <==> x == cs[0] || x in cs[1..];
    if cs[0].id != id {
      var i :| 0 <= i < |cs| && cs[i].id == id;
      assert cs[1..][i - 1].id == id;
      RemoveAt(cs[1..], id);
      UniqueCons(cs[0], Remove(cs[1..], id), cs[1..]);
    }
  }

  lemma UniqueCons(c: Client, rest: seq<Client>, tail: seq<Client>)
    requires UniqueIds(rest) && UniqueIds([c] + tail)
    requires forall x :: x in rest ==> x in tail
    ensures UniqueIds([c] + rest)
  {
    var all := [c] + rest;
    forall i, j | 0 <= i < j < |all| ensures all[i].id != all[j].id {
      if i == 0 {
        assert rest[j - 1] in tail;
        var k :| 0 <= k < |tail| && tail[k] == rest[j - 1];
        assert ([c] + tail)[0].id != ([c] + tail)[k + 1].id;
      } else {
        assert rest[i - 1].id != rest[j - 1].id;
      }
    }
  }

  lemma {:induction false} CountUpdate(cs: seq<Client>, c: Client, b: string)
    requires HasClient(cs, c.id)
    ensures CountAt(Update(cs, c), b) ==
            CountAt(cs, b) - (if Find(cs, c.id).barrier == b then 1 else 0) + (if c.barrier == b then 1 else 0)
  {
    if cs[0].id != c.id {
      CountUpdate(cs[1..], c, b);
    }
  }

  lemma {:induction false} CountRemove(cs: seq<Client>, id: nat, b: string)
    requires HasClient(cs, id)
    ensures CountAt(Remove(cs, id), b) == CountAt(cs, b) - (if Find(cs, id).barrier == b then 1 else 0)
  {
    if cs[0].id != id {
      CountRemove(cs[1..], id, b);
    }
  }

  lemma {:induction false} CountAppend(cs: seq<Client>, c: Client, b: string)
    ensures CountAt(cs + [c], b) == CountAt(cs, b) + (if c.barrier == b then 1 else 0)
  {
    if cs != [] {
      assert (cs + [c])[1..] == cs[1..] + [c];
      CountAppend(cs[1..], c, b);
    } else {
      assert cs + [c] == [c];
    }
  }

  // The count is the whole list exactly when everybody is there, and zero exactly when nobody is.
  lemma {:induction false} CountBounds(cs: seq<Client>, b: string)
    ensures CountAt(cs, b) <= |cs|
    ensures CountAt(cs, b) == |cs| <==> forall i :: 0 <= i < |cs| ==> cs[i].barrier == b
    ensures CountAt(cs, b) == 0 <==> forall i :: 0 <= i < |cs| ==> cs[i].barrier != b
  {
    if cs != [] {
      CountBounds(cs[1..], b);
      assert forall i :: 0 <= i < |cs| - 1 ==> cs[1..][i] == cs[i + 1];
    }
  }

  lemma {:induction false} MinStateIsMinimum(cs: seq<Client>)
    requires cs != []
    ensures exists i :: 0 <= i < |cs| && cs[i].state == MinState(cs)
    ensures forall i :: 0 <= i < |cs| ==> MinState(cs).Rank() <= cs[i].state.Rank()
  {
    if |cs| > 1 {
      MinStateIsMinimum(cs[1..]);
      var k :| 0 <= k < |cs| - 1 && cs[1..][k].state == MinState(cs[1..]);
      assert cs[k + 1].state == MinState(cs[1..]);
      assert cs[0].state == MinState(cs) || cs[k + 1].state == MinState(cs);
    } else {
      assert cs[0].state == MinState(cs);
    }
  }
}

/**
 The log of checkpoint requests, restart scripts and resets, for the coordinator on its own
 under any sequence of events whatsoever.

 A request is refused while one is open, and only a script or a reset closes it.
 */
module RequestLog {
  import opened CoordinatorState
  import opened BarrierBookkeeping

  predicate Open(m: seq<Mark>) {
    m != [] && m[|m| - 1].Started?
  }

  // The generation of the last request since the last reset, -1 if there is none.
  function LastGeneration(m: seq<Mark>): int {
    if m == [] then -1
    else
      match m[|m| - 1]
      case Reset => -1
      case Started(generation) => generation
      case Wrote(_) => LastGeneration(m[..|m| - 1])
  }

  // Every request finds the one before it closed and has a higher generation.
  predicate InOrder(m: seq<Mark>) {
    m == [] ||
    (var before, last := m[..|m| - 1], m[|m| - 1];
     InOrder(before) && (last.Started? ==> !Open(before) && LastGeneration(before) < last.generation))
  }

  ghost predicate Logged(c: Coord) {
    && c.suspendMsgSent == Open(c.marks) && InOrder(c.marks) && LastGeneration(c.marks) <= c.generation
    && (c.clients != [] ==> c.comp != NO_COMP)
  }

  lemma Append(m: seq<Mark>, x: Mark)
    ensures Open(m + [x]) == x.Started?
    ensures LastGeneration(m + [x]) == (if x.Reset? then -1 else if x.Started? then x.generation else LastGeneration(m))
    ensures InOrder(m + [x]) == (InOrder(m) && (x.Started? ==> !Open(m) && LastGeneration(m) < x.generation))
  {
    assert (m + [x])[..|m|] == m;
  }

  // A computation id is never the null id: new ones hold a virtual pid, those of a restart come from the images.
  predicate Genuine(e: Event) {
    e.Connect? ==> e.hello.newComp != NO_COMP && (e.hello.restarting ==> e.hello.comp != NO_COMP)
  }

  lemma RequestLogged(c: Coord)
    requires Logged(c)
    ensures Logged(StartCheckpoint(c).0)
  {
    Append(c.marks, Started(c.generation + 1));
  }

  lemma ResetLogged(c: Coord)
    requires Logged(c) && c.clients == []
    ensures Logged(InitializeComputation(c)) && LastGeneration(InitializeComputation(c).marks) == -1
  {
    Append(c.marks, Reset);
  }

  // An admitted client changes the generation only in a coordinator that was just reset.
  lemma ConnectLogged(c: Coord, id: nat, hello: Hello, a: Admission)
    requires Logged(c) && Genuine(Connect(id, hello))
    requires a == (if hello.restarting then ConnectRestart(c, id, hello) else ConnectNew(c, id, hello))
    ensures !a.Aborted? ==> Logged(a.coord)
  {
    if c.clients == [] { ResetLogged(c); }
  }

  // A connection adds at most a reset to the log.
  lemma ConnectMarks(c: Coord, id: nat, hello: Hello)
    ensures var a := ConnectNew(c, id, hello);
            !a.Aborted? ==>
              a.coord.files == c.files && a.coord.marks == (if c.clients == [] then c.marks + [Reset] else c.marks)
  {
  }

  // A name goes into the maps, and the script, if it is the last, is those maps.
  lemma NameMarks(c: Coord, id: nat, unique: bool, ckpt: CkptFile)
    requires HasClient(c.clients, id) && OnFilename(c, id, unique, ckpt).Ok?
    ensures var c' := OnFilename(c, id, unique, ckpt).coord;
            c'.files == AddFile(c.files, ckpt) && (c'.marks == c.marks || c'.marks == c.marks + [Wrote(c'.files)])
  {
  }

  lemma NameLogged(c: Coord)
    requires Logged(c)
    ensures Logged(CountName(c))
  {
    Append(c.marks, Wrote(c.files));
  }

  lemma FilenameLogged(c: Coord, id: nat, unique: bool, ckpt: CkptFile)
    requires Logged(c) && HasClient(c.clients, id)
    ensures OnFilename(c, id, unique, ckpt).Ok? ==> Logged(OnFilename(c, id, unique, ckpt).coord)
  {
    NameLogged(c.(clients := Update(c.clients, Find(c.clients, id).(state := CHECKPOINTED)),
                  uniqueCkptFilenames := c.uniqueCkptFilenames || unique, files := AddFile(c.files, ckpt)));
  }

  // Nothing else touches the log, the flag, the generation, the computation id or the names.
  ghost predicate SameLog(c: Coord, c': Coord) {
    && c'.marks == c.marks && c'.generation == c.generation && c'.suspendMsgSent == c.suspendMsgSent
    && c'.comp == c.comp && c'.files == c.files
  }

  // Nothing, or a release to everybody.
  predicate OnlyReleases(sends: seq<Send>) {
    sends != [] ==> sends[0].ToAll? && sends[0].msg.Released?
  }

  lemma DisconnectSameLog(c: Coord, id: nat)
    requires HasClient(c.clients, id)
    ensures SameLog(c, OnDisconnect(c, id).0) && OnDisconnect(c, id).0.clients == Remove(c.clients, id)
    ensures OnlyReleases(OnDisconnect(c, id).1)
  {
  }

  lemma ArriveSameLog(c: Coord, client: Client, name: string)
    ensures SameLog(c, Arrive(c, client, name).0) && OnlyReleases(Arrive(c, client, name).1)
  {
  }

  lemma BarrierSameLog(c: Coord, id: nat, state: WorkerState, name: string)
    requires HasClient(c.clients, id)
    ensures SameLog(c, OnBarrier(c, id, state, name).0) && OnlyReleases(OnBarrier(c, id, state, name).1)
  {
    var client := Find(c.clients, id).(state := state);
    var c1 := c.(clients := Update(c.clients, client));
    UpdateKeepsIds(c.clients, client);
    var r := OnBarrier(c, id, state, name);
    if c.currentBarrier != "" && name != c.currentBarrier {
      assert r == OnDisconnect(c1, id);
      DisconnectSameLog(c1, id);
    } else if name == client.barrier {
      assert r == (c1, []);
    } else {
      assert r == Arrive(c1, client, name);
      ArriveSameLog(c1, client, name);
    }
  }

  lemma DataLogged(c: Coord, id: nat, msg: WorkerMsg)
    requires Logged(c) && HasClient(c.clients, id)
    ensures OnData(c, id, msg).Ok? ==> Logged(OnData(c, id, msg).coord)
  {
    match msg
    case Barrier(state, name) => BarrierSameLog(c, id, state, name);
    case Filename(_, unique, ckpt) => FilenameLogged(c, id, unique, ckpt);
    case Resuming(_) =>
    case Other(_) =>
  }

  lemma StepLogged(c: Coord, e: Event)
    requires Enabled(c, e) && Genuine(e) && Logged(c) && Step(c, e).Ok?
    ensures Logged(Step(c, e).coord)
  {
    match e
    case Connect(id, hello) =>
      ConnectLogged(c, id, hello, if hello.restarting then ConnectRestart(c, id, hello) else ConnectNew(c, id, hello));
    case Data(id, msg) => DataLogged(c, id, msg);
    case Disconnect(id) => DisconnectSameLog(c, id);
    case CheckpointRequest => RequestLogged(c);
  }

  // ----- over whole runs -----

  predicate AnyRun(c: Coord, es: seq<Event>)
    decreases es
  {
    es != [] ==> Enabled(c, es[0]) && Genuine(es[0]) && Step(c, es[0]).Ok? && AnyRun(Step(c, es[0]).coord, es[1..])
  }

  function AfterAny(c: Coord, es: seq<Event>): Coord
    requires AnyRun(c, es)
    decreases es
  {
    if es == [] then c else AfterAny(Step(c, es[0]).coord, es[1..])
  }

  lemma {:induction false} AlwaysLogged(c: Coord, es: seq<Event>)
    requires Logged(c) && AnyRun(c, es)
    ensures Logged(AfterAny(c, es))
    decreases es
  {
    if es != [] {
      StepLogged(c, es[0]);
      AlwaysLogged(Step(c, es[0]).coord, es[1..]);
    }
  }

  // What the order says about two requests of one log.
  lemma {:induction false} InOrderMeans(m: seq<Mark>, i: nat, j: nat)
    requires InOrder(m) && i < j < |m| && m[i].Started? && m[j].Started?
    ensures !m[j - 1].Started?
    ensures (forall k :: i < k < j ==> !m[k].Reset?) ==> m[i].generation < m[j].generation
    decreases |m|
  {
    var before := m[..|m| - 1];
    if j < |m| - 1 {
      InOrderMeans(before, i, j);
      assert before[i] == m[i] && before[j] == m[j] && before[j - 1] == m[j - 1];
      assert forall k :: i < k < j ==> before[k] == m[k];
    } else {
      assert before[|before| - 1] == m[j - 1];
      if forall k :: i < k < j ==> !m[k].Reset? {
        assert before[i] == m[i] && forall k :: i < k < j ==> before[k] == m[k];
        LastSince(before, i);
      }
    }
  }

  lemma {:induction false} LastSince(m: seq<Mark>, i: nat)
    requires InOrder(m) && i < |m| && m[i].Started? && forall k :: i < k < |m| ==> !m[k].Reset?
    ensures m[i].generation <= LastGeneration(m)
    decreases |m|
  {
    if i < |m| - 1 {
      var before := m[..|m| - 1];
      assert before[i] == m[i] && forall k :: i < k < |before| ==> before[k] == m[k];
      LastSince(before, i);
    }
  }

  // Between two requests there is a script or a reset, and without a reset the generation rises,
  // whatever the clients do.
  lemma OneRequestOpen(es: seq<Event>, i: nat, j: nat)
    requires AnyRun(INITIAL, es)
    requires var m := AfterAny(INITIAL, es).marks; i < j < |m| && m[i].Started? && m[j].Started?
    ensures var m := AfterAny(INITIAL, es).marks;
            && (exists k :: i < k < j && (m[k].Wrote? || m[k].Reset?))
            && ((forall k :: i < k < j ==> !m[k].Reset?) ==> m[i].generation < m[j].generation)
  {
    AlwaysLogged(INITIAL, es);
    var m := AfterAny(INITIAL, es).marks;
    InOrderMeans(m, i, j);
    assert i < j - 1;
  }
}

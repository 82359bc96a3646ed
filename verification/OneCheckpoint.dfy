/**
 One checkpoint at a time, and restart scripts that are exact.

 Built on the protocol of CheckpointProtocol.dfy.  What every script holds is proved of every run.
 That it holds one name per worker, and that a request stops the workers only once, needs one more
 hypothesis: nobody joins in the window between the release of DMT:WriteCkpt and the writing of the
 script.  JoinWindow.dfy shows that this is exactly what it takes.
 */
module OneCheckpoint {
  import opened CoordinatorState
  import BarrierBookkeeping
  import opened RequestLog
  import opened CheckpointProtocol

  // ----- the file maps as a function of the names delivered -----

  function FilesOf(named: seq<(nat, CkptFile)>): Files {
    if named == [] then NO_FILES
    else AddFile(FilesOf(named[..|named| - 1]), named[|named| - 1].1)
  }

  // The names delivered for one host and one remote shell, in order of arrival.
  function NamesFor(named: seq<(nat, CkptFile)>, shell: string, host: string): seq<string> {
    if named == [] then []
    else
      var last := named[|named| - 1].1;
      NamesFor(named[..|named| - 1], shell, host)
          + (if last.shell == shell && last.host == host then [last.file] else [])
  }

  function Lookup(m: HostFiles, host: string): seq<string> {
    if host in m then m[host] else []
  }

  // Each of the three maps lists, under each host, exactly the names delivered for it.
  lemma {:induction false} FilesAreTheNames(named: seq<(nat, CkptFile)>, host: string)
    requires forall i :: 0 <= i < |named| ==> KnownShell(named[i].1.shell)
    ensures Lookup(FilesOf(named).plain, host) == NamesFor(named, "", host)
    ensures Lookup(FilesOf(named).rsh, host) == NamesFor(named, "rsh", host)
    ensures Lookup(FilesOf(named).ssh, host) == NamesFor(named, "ssh", host)
  {
    if named != [] {
      FilesAreTheNames(named[..|named| - 1], host);
    }
  }

  ghost function IdsOf(named: seq<(nat, CkptFile)>): set<nat> {
    set i | 0 <= i < |named| :: named[i].0
  }

  ghost predicate Distinct(named: seq<(nat, CkptFile)>) {
    forall i, j :: 0 <= i < j < |named| ==> named[i].0 != named[j].0
  }

  lemma {:induction false} IdsCount(named: seq<(nat, CkptFile)>)
    requires Distinct(named)
    ensures |IdsOf(named)| == |named|
  {
    if named != [] {
      var n := |named| - 1;
      IdsCount(named[..n]);
      assert IdsOf(named) == IdsOf(named[..n]) + {named[n].0};
    }
  }

  lemma AppendName(named: seq<(nat, CkptFile)>, x: (nat, CkptFile))
    ensures IdsOf(named + [x]) == IdsOf(named) + {x.0}
    ensures Distinct(named) && x.0 !in IdsOf(named) ==> Distinct(named + [x])
    ensures FilesOf(named + [x]) == AddFile(FilesOf(named), x.1)
  {
    var all := named + [x];
    assert all[..|named|] == named && all[|named|] == x;
    forall k | k in IdsOf(named) + {x.0} ensures k in IdsOf(all) {
      if k in IdsOf(named) {
        var i :| 0 <= i < |named| && named[i].0 == k;
        assert all[i].0 == k;
      }
    }
  }

  lemma SubsetSameSize(a: set<nat>, b: set<nat>)
    requires a <= b && |a| == |b|
    ensures a == b
  {
    assert b == a + (b - a);
    assert |b| == |a| + |b - a|;
  }

  // ----- the log of requests, scripts and resets -----

  // Every script directly follows its request.
  predicate Strict(m: seq<Mark>) {
    m == [] || (Strict(m[..|m| - 1]) && (m[|m| - 1].Wrote? ==> Open(m[..|m| - 1])))
  }

  lemma StrictAppend(m: seq<Mark>, x: Mark)
    ensures Strict(m + [x]) == (Strict(m) && (x.Wrote? ==> Open(m)))
  {
    assert (m + [x])[..|m|] == m;
  }

  lemma {:induction false} StrictMeans(m: seq<Mark>, k: nat)
    requires Strict(m) && k < |m| && m[k].Wrote?
    ensures k > 0 && m[k - 1].Started?
    decreases |m|
  {
    var before := m[..|m| - 1];
    if k < |m| - 1 {
      assert before[k] == m[k];
      StrictMeans(before, k);
      assert before[k - 1] == m[k - 1];
    } else {
      assert before[|before| - 1] == m[k - 1];
    }
  }

  // ----- the invariant -----

  // The worker has, or has used, a request for a checkpoint that has not stopped it yet.
  ghost predicate Asked(w: Worker) {
    w.pc.PreSuspend? || (w.pc.AtBarrier? && w.pc.i == 0) || (exists i :: 0 <= i < |w.inbox| && w.inbox[i].DoCheckpoint?)
  }

  ghost predicate Names(g: Config, s: System) {
    && (s.c.suspendMsgSent && !s.wrote ==> s.named == [] && s.c.numRestartFilenames == 0)
    && (s.c.suspendMsgSent && s.wrote ==>
          Distinct(s.named) && IdsOf(s.named) <= s.released && s.c.numRestartFilenames == |s.named|)
  }

  ghost predicate Owing(g: Config, s: System, id: nat) {
    && s.c.suspendMsgSent && s.wrote && id in s.released && id !in IdsOf(s.named)
    && s.c.numCkptWorkers == |s.released|
  }

  ghost predicate Single(g: Config, s: System) {
    && (forall id :: id in s.w && Asked(s.w[id]) ==> s.c.suspendMsgSent && !s.wrote)
    && (1 <= s.stage <= g.wr ==> s.c.suspendMsgSent && !s.wrote)
    && Names(g, s)
    && (forall id :: id in s.w && Owes(g, s.w[id]) ==> Owing(g, s, id))
  }

  ghost predicate Inv1(g: Config, s: System) {
    Inv(g, s) && Logged(s.c) && Strict(s.c.marks) && (s.c.clients != [] ==> Single(g, s))
  }

  // Somebody is let in beside others.
  predicate Joins(s: System, e: Event) {
    (e.Fork? || e.Launch?) && s.c.clients != [] && ConnectNew(s.c, e.id, e.hello).Admitted?
  }

  // The window between the release of DMT:WriteCkpt and the script.
  predicate InWindow(s: System) {
    s.c.suspendMsgSent && s.wrote
  }

  ghost predicate OutsideWindow(s: System, e: Event) {
    Joins(s, e) ==> !InWindow(s)
  }

  // ----- steps -----

  lemma AdvanceAsks(g: Config, stage: nat, cl: Client, w: Worker, unique: bool, ckpt: CkptFile)
    requires g.Valid() && Fits(g, stage, cl, w) && Acts(w.pc)
    ensures Asked(AdvanceStep(g, w, unique, ckpt)) ==> Asked(w)
  {
  }

  lemma WorkerSingle(g: Config, s: System, id: nat, w: Worker)
    requires Single(g, s) && id in s.w
    requires Asked(w) ==> Asked(s.w[id])
    requires Owes(g, w) ==> Owes(g, s.w[id])
    ensures Single(g, s.(w := s.w[id := w]))
  {
  }

  // Delivering a message never makes a worker ask or owe more; delivering its name clears the debt.
  lemma DeliverClears(g: Config, stage: nat, cl: Client, w: Worker)
    requires g.Valid() && stage < |g.script| && Fits(g, stage, cl, w) && w.toCoord != []
    ensures Asked(w.(toCoord := w.toCoord[1..])) ==> Asked(w)
    ensures w.toCoord[0].Filename? ==> !Owes(g, w.(toCoord := w.toCoord[1..]))
  {
  }

  // Changes to client records, barrier name and counter do not matter here.
  lemma RecordsDoNotMatter(g: Config, s: System, c: Coord)
    requires Single(g, s) && c.suspendMsgSent == s.c.suspendMsgSent
    requires c.numRestartFilenames == s.c.numRestartFilenames && c.numCkptWorkers == s.c.numCkptWorkers
    ensures Single(g, s.(c := c))
  {
  }

  // Releases: the first one needs everybody asked; the one of DMT:WriteCkpt opens the account.
  lemma ReleaseAccount(g: Config, s: System, s': System)
    requires g.Valid() && Single(g, s) && s.stage < |g.script| && s.w != map[]
    requires s'.stage == g.Next(s.stage) && s'.w.Keys == s.w.Keys && s'.named == s.named
    requires s'.released == (if s.stage == g.wr then s.w.Keys else s.released)
        && s'.wrote == (s.wrote || s.stage == g.wr)
    requires s'.c == s.c.(prevBarrier := s'.c.prevBarrier, currentBarrier := "", atBarrier := 0,
                          numCkptWorkers := |s.w.Keys|, restartPending := s'.c.restartPending)
    requires forall id :: id in s.w ==> (Owes(g, s'.w[id]) <==> s.stage == g.wr)
    requires forall id :: id in s'.w && Asked(s'.w[id]) ==> s.stage == 0
    requires s.stage == 0 ==> forall id :: id in s.w ==> Asked(s.w[id])
    ensures Single(g, s')
  {
  }

  lemma ReleaseSingle(g: Config, s: System)
    requires Core(g, s) && Single(g, s) && s.c.clients != [] && s.c.currentBarrier != ""
    ensures Single(g, Absorb(g, s, ReleaseBarrier(s.c).0, ReleaseBarrier(s.c).1))
  {
    var s' := Absorb(g, s, ReleaseBarrier(s.c).0, ReleaseBarrier(s.c).1);
    if s.c.atBarrier != |s.c.clients| {
      AbsorbNothing(g, s, s.c);
    } else {
      ReleasedWorkers(g, s, s');
      AllArrived(g, s);
      ReleaseAsks(g, s, s');
      KeysCount(g, s);
      ReleasedHistory(g, s, s');
      ReleaseAccount(g, s, s');
    }
  }

  lemma ReleasedHistory(g: Config, s: System, s': System)
    requires Wired(g, s) && s.c.clients != [] && s.c.atBarrier == |s.c.clients| && s.c.numRestartPeers <= 0
    requires s' == Absorb(g, s, ReleaseBarrier(s.c).0, ReleaseBarrier(s.c).1)
    ensures s.w != map[] && s'.named == s.named && s'.wrote == (s.wrote || s.stage == g.wr)
    ensures s'.released == (if s.stage == g.wr then s.w.Keys else s.released)
    ensures s'.c == s.c.(prevBarrier := s'.c.prevBarrier, currentBarrier := "", atBarrier := 0,
                         numCkptWorkers := |s.c.clients|, restartPending := s'.c.restartPending)
  {
    assert (map id | id in s.w && HasClient(s.c.clients, id) :: s.w[id]).Keys == s.w.Keys;
    assert HasClient(s.c.clients, s.c.clients[0].id);
  }

  predicate Waits(w: Worker, stage: nat) {
    w.pc.AtBarrier? && w.pc.i == stage && (forall i :: 0 <= i < |w.inbox| ==> w.inbox[i].DoCheckpoint?)
    && (stage > 0 ==> w.inbox == [])
  }

  lemma AllArrived(g: Config, s: System)
    requires Core(g, s) && s.c.clients != [] && s.c.currentBarrier != "" && s.c.atBarrier == |s.c.clients|
    ensures forall id :: id in s.w ==> Waits(s.w[id], s.stage)
  {
    CountBounds(s.c.clients, s.c.currentBarrier);
    forall id | id in s.w ensures Waits(s.w[id], s.stage) {
      var i :| 0 <= i < |s.c.clients| && s.c.clients[i].id == id;
      ArrivedShape(g, s.stage, s.c.clients[i], s.w[id]);
    }
  }

  // A release asks nobody for anything.
  lemma ReleasedAsks(w: Worker, stage: nat, name: string, peers: nat)
    requires Waits(w, stage)
    ensures Asked(w.(inbox := w.inbox + [Released(name, peers)])) ==> stage == 0 && Asked(w)
  {
    var q := w.inbox + [Released(name, peers)];
    if stage > 0 { assert w.inbox == [] && q == [Released(name, peers)]; }
  }

  lemma ReleaseAsks(g: Config, s: System, s': System)
    requires Core(g, s) && s.c.clients != [] && s.c.currentBarrier != "" && s.c.atBarrier == |s.c.clients|
    requires s' == Absorb(g, s, ReleaseBarrier(s.c).0, ReleaseBarrier(s.c).1)
    requires forall id :: id in s.w ==> Waits(s.w[id], s.stage)
    ensures forall id :: id in s'.w && Asked(s'.w[id]) ==> s.stage == 0 && id in s.w && Asked(s.w[id])
  {
    ReleasedShape(g, s, s');
    forall id | id in s'.w && Asked(s'.w[id]) ensures s.stage == 0 && id in s.w && Asked(s.w[id]) {
      ReleasedAsks(s.w[id], s.stage, g.script[s.stage], |s.c.clients|);
    }
  }

  // As many workers as clients.
  lemma KeysCount(g: Config, s: System)
    requires Wired(g, s)
    ensures |s.w.Keys| == |s.c.clients|
  {
    var ids := seq(|s.c.clients|, i requires 0 <= i < |s.c.clients| => (s.c.clients[i].id, CkptFile("", "", "")));
    IdsCount(ids);
    forall k ensures k in s.w <==> k in IdsOf(ids) {
      if k in s.w {
        var i :| 0 <= i < |s.c.clients| && s.c.clients[i].id == k;
        assert ids[i].0 == k;
      }
      if k in IdsOf(ids) {
        var i :| 0 <= i < |ids| && ids[i].0 == k;
        assert HasClient(s.c.clients, k);
      }
    }
    assert s.w.Keys == IdsOf(ids);
  }

  lemma BarrierSingle(g: Config, s: System, id: nat)
    requires Inv(g, s) && Single(g, s) && id in s.w && s.w[id].toCoord != [] && s.w[id].toCoord[0].Barrier?
    ensures Single(g, DeliverStep(g, s, id))
  {
    BarrierCore(g, s, id);
    var w, msg := s.w[id], s.w[id].toCoord[0];
    DeliverFits(g, s.stage, Find(s.c.clients, id), w);
    DeliverClears(g, s.stage, Find(s.c.clients, id), w);
    WorkerSingle(g, s, id, w.(toCoord := w.toCoord[1..]));
    var c := BarrierBookkeeping.Arrived(s.c, Find(s.c.clients, id).(state := msg.state, barrier := msg.name));
    RecordsDoNotMatter(g, Taken(s, id), c);
    var s1 := Taken(s, id).(c := c);
    assert c.clients != [] by { assert HasClient(c.clients, id); }
    ReleaseSingle(g, s1);
    AbsorbSame(g, Taken(s, id), s1, ReleaseBarrier(c).0, ReleaseBarrier(c).1);
  }

  lemma ResumingSingle(g: Config, s: System, id: nat)
    requires Inv(g, s) && Single(g, s) && id in s.w && s.w[id].toCoord != [] && s.w[id].toCoord[0].Resuming?
    ensures Single(g, DeliverStep(g, s, id))
  {
    ResumingCore(g, s, id);
    var w := s.w[id];
    DeliverFits(g, s.stage, Find(s.c.clients, id), w);
    DeliverClears(g, s.stage, Find(s.c.clients, id), w);
    WorkerSingle(g, s, id, w.(toCoord := w.toCoord[1..]));
    RecordsDoNotMatter(g, Taken(s, id), OnResuming(s.c, id, RUNNING));
    AbsorbNothing(g, Taken(s, id), OnResuming(s.c, id, RUNNING));
  }

  // ----- a name is delivered -----

  // The coordinator's record after one more name.
  ghost predicate NameCounted(c: Coord, c': Coord, ckpt: CkptFile) {
    c' == CountName(c.(clients := c'.clients, uniqueCkptFilenames := c'.uniqueCkptFilenames,
        files := AddFile(c.files, ckpt)))
  }

  lemma LastName(named: seq<(nat, CkptFile)>, released: set<nat>)
    requires Distinct(named) && IdsOf(named) <= released
    ensures |named| == |released| ==> IdsOf(named) == released
  {
    IdsCount(named);
    if |named| == |released| {
      SubsetSameSize(IdsOf(named), released);
    }
  }

  // One more name of a worker that owed it: the account stays in order, and is settled exactly with the last.
  lemma OneMoreName(g: Config, s: System, id: nat, ckpt: CkptFile)
    requires Names(g, s) && Owing(g, s, id)
    ensures var named := s.named + [(id, ckpt)];
            && Distinct(named) && IdsOf(named) == IdsOf(s.named) + {id} && IdsOf(named) <= s.released
            && (s.c.numRestartFilenames + 1 == s.c.numCkptWorkers <==> IdsOf(named) == s.released)
  {
    var named := s.named + [(id, ckpt)];
    AppendName(s.named, (id, ckpt));
    LastName(named, s.released);
    IdsCount(named);
  }

  lemma NameDebts(g: Config, s: System, id: nat, w: Worker, s': System)
    requires Single(g, s) && id in s.w && Owing(g, s, id) && !Owes(g, w)
    requires s'.w == s.w[id := w] && s'.released == s.released && s'.wrote == s.wrote
    requires IdsOf(s'.named) == IdsOf(s.named) + {id}
    requires IdsOf(s'.named) != s.released ==> s'.c.suspendMsgSent && s'.c.numCkptWorkers == s.c.numCkptWorkers
    ensures forall k :: k in s'.w && Owes(g, s'.w[k]) ==> Owing(g, s', k)
  {
    forall k | k in s'.w && Owes(g, s'.w[k]) ensures Owing(g, s', k) {
      assert k != id && k in s.w && Owes(g, s.w[k]);
      assert Owing(g, s, k);
    }
  }

  lemma NameAccount(g: Config, s: System, id: nat, w: Worker, ckpt: CkptFile, c: Coord)
    requires Single(g, s) && id in s.w && Owing(g, s, id) && !Owes(g, w) && !Asked(w) && NameCounted(s.c, c, ckpt)
    ensures Single(g, s.(c := c, w := s.w[id := w], named := s.named + [(id, ckpt)]))
  {
    var s' := s.(c := c, w := s.w[id := w], named := s.named + [(id, ckpt)]);
    OneMoreName(g, s, id, ckpt);
    NameDebts(g, s, id, w, s');
    forall k | k in s'.w ensures !Asked(s'.w[k]) {
      assert k != id ==> k in s.w && s'.w[k] == s.w[k];
    }
    assert !(1 <= s'.stage <= g.wr);
  }

  // The last mark is a script holding the names delivered since the request, one for each worker released
  // from DMT:WriteCkpt.
  ghost predicate Exact(s: System) {
    && s.c.marks != [] && s.c.marks[|s.c.marks| - 1] == Wrote(FilesOf(s.named))
    && Distinct(s.named) && IdsOf(s.named) == s.released
  }

  lemma NameLog(c: Coord, c': Coord, ckpt: CkptFile)
    requires Logged(c) && Strict(c.marks) && c.suspendMsgSent && NameCounted(c, c', ckpt)
        && (c.clients == [] ==> c'.clients == [])
    ensures Logged(c') && Strict(c'.marks)
    ensures c'.marks != c.marks ==>
        c.numRestartFilenames + 1 == c.numCkptWorkers && c'.marks == c.marks + [Wrote(c'.files)]
  {
    NameLogged(c.(clients := c'.clients, uniqueCkptFilenames := c'.uniqueCkptFilenames,
        files := AddFile(c.files, ckpt)));
    StrictAppend(c.marks, Wrote(c'.files));
  }

  lemma FilenameShape(g: Config, s: System, id: nat)
    requires Inv(g, s) && Single(g, s) && id in s.w && s.w[id].toCoord != [] && s.w[id].toCoord[0].Filename?
    ensures HasClient(s.c.clients, id) && OnData(s.c, id, s.w[id].toCoord[0]).Ok?
    ensures var c := OnData(s.c, id, s.w[id].toCoord[0]).coord;
            DeliverStep(g, s, id) == Taken(s, id).(c := c) && c.clients == s.c.clients
    ensures Owing(g, s, id) && !Owes(g, Taken(s, id).w[id]) && !Asked(Taken(s, id).w[id])
  {
    DeliverFilename(g, s, id);
    DeliverFits(g, s.stage, Find(s.c.clients, id), s.w[id]);
    DeliverClears(g, s.stage, Find(s.c.clients, id), s.w[id]);
    assert Owing(g, s, id);
  }

  lemma FilenameSingle(g: Config, s: System, id: nat)
    requires Inv1(g, s) && id in s.w && s.w[id].toCoord != [] && s.w[id].toCoord[0].Filename?
    ensures var s' := DeliverStep(g, s, id);
            && Single(g, s') && Logged(s'.c) && Strict(s'.c.marks)
            && (s'.c.marks != s.c.marks ==> Distinct(s'.named) && IdsOf(s'.named) == s'.released)
  {
    FilenameShape(g, s, id);
    var msg := s.w[id].toCoord[0];
    var c := OnData(s.c, id, msg).coord;
    assert NameCounted(s.c, c, msg.ckpt);
    NameAccount(g, s, id, Taken(s, id).w[id], msg.ckpt, c);
    OneMoreName(g, s, id, msg.ckpt);
    NameLog(s.c, c, msg.ckpt);
  }

  // ----- the other steps -----

  lemma GoneSingle(g: Config, s: System, id: nat)
    requires Inv(g, s) && Single(g, s) && id in s.w
    ensures Single(g, Gone(s, id))
  {
  }

  lemma DisconnectCoord(c: Coord, id: nat)
    requires HasClient(c.clients, id)
    ensures var (c', sends) := OnDisconnect(c, id);
            && c'.clients == Remove(c.clients, id)
            && (c'.clients == [] || c.currentBarrier == "" ==> sends == [] && c' == c.(clients := c'.clients))
            && (c'.clients != [] && c.currentBarrier != "" ==>
                  (c', sends) == ReleaseBarrier(BarrierBookkeeping.Departed(c, id)))
  {
  }

  lemma DropSingle(g: Config, s: System, id: nat)
    requires Inv(g, s) && Single(g, s) && id in s.w
    ensures Single(g, Absorb(g, s, OnDisconnect(s.c, id).0, OnDisconnect(s.c, id).1))
  {
    var s1 := Gone(s, id);
    GoneWired(g, s, id);
    GoneSingle(g, s, id);
    var (c, sends) := OnDisconnect(s.c, id);
    DisconnectCoord(s.c, id);
    AbsorbSame(g, s, s1, c, sends);
    if s1.c.clients == [] || s.c.currentBarrier == "" {
      AbsorbNothing(g, s1, c);
      RecordsDoNotMatter(g, s1, c);
    } else {
      GoneCore(g, s, id);
      ReleaseSingle(g, s1);
    }
  }

  lemma RequestSingle(g: Config, s: System)
    requires Inv(g, s) && s.c.clients != [] && Single(g, s)
    ensures Single(g, Absorb(g, s, StartCheckpoint(s.c).0, StartCheckpoint(s.c).1))
  {
    if MayStart(s.c) {
      var s' := Absorb(g, s, StartCheckpoint(s.c).0, StartCheckpoint(s.c).1);
      RequestedWorkers(g, s, s');
      RunningShape(g, s.stage, s.c.clients[0], s.w[s.c.clients[0].id]);
    } else {
      AbsorbNothing(g, s, s.c);
    }
  }

  // The first worker after a reset.
  lemma FirstSingle(g: Config, s: System, id: nat, hello: Hello)
    requires Wired(g, s) && s.c.clients == []
    ensures var s' := Join(g, s, id, ConnectNew(s.c, id, hello));
            s'.c.clients != [] && !s'.aborted ==> Single(g, s')
  {
    assert s.w == map[];
  }

  lemma JoinSingle(g: Config, s: System, id: nat, hello: Hello)
    requires Single(g, s) && id !in s.w && s.c.clients != [] && !InWindow(s) && s.stage == 0
    requires ConnectNew(s.c, id, hello).Admitted?
    ensures Single(g, Join(g, s, id, ConnectNew(s.c, id, hello)))
  {
    var s' := Join(g, s, id, ConnectNew(s.c, id, hello));
    forall k | k in s'.w ensures !Owes(g, s'.w[k]) {
      assert k != id ==> k in s.w && (Owes(g, s.w[k]) ==> Owing(g, s, k));
    }
    forall k | k in s'.w && Asked(s'.w[k]) ensures s'.c.suspendMsgSent && !s'.wrote {
      assert k != id ==> k in s.w && s'.w[k] == s.w[k];
    }
  }

  lemma JoinLog(g: Config, s: System, id: nat, hello: Hello)
    requires Logged(s.c) && Strict(s.c.marks) && hello.newComp != NO_COMP
    ensures var s' := Join(g, s, id, ConnectNew(s.c, id, hello)); Logged(s'.c) && Strict(s'.c.marks)
  {
    var a := ConnectNew(s.c, id, hello);
    ConnectMarks(s.c, id, hello);
    StrictAppend(s.c.marks, Reset);
    NewLogged(s.c, id, hello);
    assert Join(g, s, id, a).c == if a.Aborted? then s.c else a.coord;
  }

  lemma NewLogged(c: Coord, id: nat, hello: Hello)
    requires Logged(c) && hello.newComp != NO_COMP
    ensures !ConnectNew(c, id, hello).Aborted? ==> Logged(ConnectNew(c, id, hello).coord)
  {
    if c.clients == [] { ResetLogged(c); }
  }

  lemma JoinInv1(g: Config, s: System, e: Event)
    requires Inv1(g, s) && (e.Fork? || e.Launch?) && Enabled(s, e) && OutsideWindow(s, e)
    ensures Inv1(g, Step(g, s, e))
  {
    StepInv(g, s, e);
    JoinLog(g, s, e.id, e.hello);
    if s.c.clients == [] {
      FirstSingle(g, s, e.id, e.hello);
    } else if Joins(s, e) {
      StageOfJoin(g, s, e);
      JoinSingle(g, s, e.id, e.hello);
    }
  }

  lemma StageOfJoin(g: Config, s: System, e: Event)
    requires Inv(g, s) && Joins(s, e) && Enabled(s, e)
    ensures s.stage == 0
  {
    if e.Fork? {
      ForkAtStageZero(g, s, e);
    } else if !s.c.suspendMsgSent {
      AdmittedAtStageZero(g, s, e.id, e.hello);
    }
  }

  lemma RequestInv1(g: Config, s: System)
    requires Inv1(g, s)
    ensures Inv1(g, Step(g, s, Request))
  {
    StepInv(g, s, Request);
    RequestLogged(s.c);
    StrictAppend(s.c.marks, Started(s.c.generation + 1));
    if s.c.clients != [] { RequestSingle(g, s); }
  }

  lemma DropInv1(g: Config, s: System, id: nat)
    requires Inv1(g, s) && id in s.w
    ensures Inv1(g, Step(g, s, Drop(id)))
  {
    assert HasClient(s.c.clients, id);
    StepInv(g, s, Drop(id));
    DropSingle(g, s, id);
    DisconnectSameLog(s.c, id);
  }

  lemma DeliverLog(g: Config, s: System, id: nat)
    requires Inv(g, s) && Logged(s.c) && Strict(s.c.marks) && id in s.w && s.w[id].toCoord != []
    requires !s.w[id].toCoord[0].Filename?
    ensures Logged(DeliverStep(g, s, id).c) && Strict(DeliverStep(g, s, id).c.marks)
  {
    QuietDelivery(g, s, id);
  }

  lemma DeliverInv1(g: Config, s: System, id: nat)
    requires Inv1(g, s) && id in s.w && s.w[id].toCoord != []
    ensures Inv1(g, DeliverStep(g, s, id))
  {
    DeliverInv(g, s, id);
    DeliverFits(g, s.stage, Find(s.c.clients, id), s.w[id]);
    var msg := s.w[id].toCoord[0];
    if msg.Filename? {
      FilenameSingle(g, s, id);
    } else {
      DeliverLog(g, s, id);
      if msg.Barrier? { BarrierSingle(g, s, id); } else { ResumingSingle(g, s, id); }
    }
  }

  lemma OwnStepInv1(g: Config, s: System, id: nat, w: Worker)
    requires Inv1(g, s) && id in s.w && Inv(g, s.(w := s.w[id := w]))
    requires Asked(w) ==> Asked(s.w[id])
    requires Owes(g, w) ==> Owes(g, s.w[id])
    ensures Inv1(g, s.(w := s.w[id := w]))
  {
    assert HasClient(s.c.clients, id);
    WorkerSingle(g, s, id, w);
  }

  lemma StepInv1(g: Config, s: System, e: Event)
    requires Inv1(g, s) && Enabled(s, e) && OutsideWindow(s, e)
    ensures Inv1(g, Step(g, s, e))
  {
    StepInv(g, s, e);
    match e
    case Launch(_, _) => JoinInv1(g, s, e);
    case Fork(_, _, _) => JoinInv1(g, s, e);
    case Request => RequestInv1(g, s);
    case Deliver(id) => DeliverInv1(g, s, id);
    case Drop(id) => DropInv1(g, s, id);
    case Receive(id) =>
      PlaceOf(g, s, id);
      ReceiveFits(g, s.stage, Find(s.c.clients, id), s.w[id]);
      ReceiveAsks(g, s.stage, Find(s.c.clients, id), s.w[id]);
      OwnStepInv1(g, s, id, ReceiveStep(g, s.w[id]));
    case Advance(id, unique, ckpt) =>
      PlaceOf(g, s, id);
      AdvanceAsks(g, s.stage, Find(s.c.clients, id), s.w[id], unique, ckpt);
      AdvanceQuiet(g, s.stage, Find(s.c.clients, id), s.w[id], unique, ckpt);
      OwnStepInv1(g, s, id, AdvanceStep(g, s.w[id], unique, ckpt));
  }

  lemma ReceiveAsks(g: Config, stage: nat, cl: Client, w: Worker)
    requires g.Valid() && Fits(g, stage, cl, w) && w.inbox != [] && Reads(w.pc)
    ensures Asked(ReceiveStep(g, w)) ==> Asked(w)
  {
    if i :| 0 <= i < |w.inbox| - 1 && w.inbox[1..][i].DoCheckpoint? { assert w.inbox[i + 1].DoCheckpoint?; }
    assert w.inbox[0].DoCheckpoint? ==> Asked(w);
  }

  // ----- what every script holds -----

  lemma NameTracks(g: Config, s: System, id: nat)
    requires Inv(g, s) && id in s.w && s.w[id].toCoord != [] && s.w[id].toCoord[0].Filename?
    requires s.c.files == FilesOf(s.named)
    ensures var s' := DeliverStep(g, s, id);
            && s'.c.files == FilesOf(s'.named)
            && (s'.c.marks == s.c.marks || s'.c.marks == s.c.marks + [Wrote(s'.c.files)])
  {
    DeliverFilename(g, s, id);
    var msg := s.w[id].toCoord[0];
    NameMarks(s.c, id, msg.unique, msg.ckpt);
    AppendName(s.named, (id, msg.ckpt));
    var c := OnData(s.c, id, msg).coord;
    assert Taken(s, id).(c := c).named == s.named + [(id, msg.ckpt)];
  }

  lemma DeliverTracks(g: Config, s: System, id: nat)
    requires Inv(g, s) && id in s.w && s.w[id].toCoord != [] && s.c.files == FilesOf(s.named)
    ensures DeliverStep(g, s, id).c.files == FilesOf(DeliverStep(g, s, id).named)
    ensures s.c.marks <= DeliverStep(g, s, id).c.marks
  {
    if s.w[id].toCoord[0].Filename? { NameTracks(g, s, id); } else { QuietDelivery(g, s, id); }
  }

  // Barriers and resumptions leave log and names alone.
  lemma QuietDelivery(g: Config, s: System, id: nat)
    requires Inv(g, s) && id in s.w && s.w[id].toCoord != [] && !s.w[id].toCoord[0].Filename?
    ensures SameLog(s.c, DeliverStep(g, s, id).c) && DeliverStep(g, s, id).named == s.named
    ensures HasClient(s.c.clients, id) && OnData(s.c, id, s.w[id].toCoord[0]).Ok?
    ensures OnlyReleases(OnData(s.c, id, s.w[id].toCoord[0]).sends)
  {
    var msg := s.w[id].toCoord[0];
    PlaceOf(g, s, id);
    if msg.Barrier? { BarrierSameLog(s.c, id, msg.state, msg.name); }
    var r := OnData(s.c, id, msg);
    assert r.Ok? && SameLog(s.c, r.coord) && OnlyReleases(r.sends);
    assert DeliverStep(g, s, id) == Absorb(g, Taken(s, id), r.coord, r.sends);
  }

  lemma DropTracks(g: Config, s: System, id: nat)
    requires Inv(g, s) && id in s.w
    ensures SameLog(s.c, Step(g, s, Drop(id)).c) && Step(g, s, Drop(id)).named == s.named
  {
    PlaceOf(g, s, id);
    DisconnectSameLog(s.c, id);
  }

  lemma JoinTracks(g: Config, s: System, id: nat, hello: Hello)
    ensures var s' := Join(g, s, id, ConnectNew(s.c, id, hello));
            s'.c.files == s.c.files && s'.named == s.named && s.c.marks <= s'.c.marks
  {
    ConnectMarks(s.c, id, hello);
  }

  lemma RequestTracks(g: Config, s: System)
    requires Inv(g, s) && s.c.files == FilesOf(s.named)
    ensures Step(g, s, Request).c.files == FilesOf(Step(g, s, Request).named)
    ensures s.c.marks <= Step(g, s, Request).c.marks
  {
    if !MayStart(s.c) { AbsorbNothing(g, s, s.c); }
  }

  // The three maps are the names delivered since the last request, and the log only grows, in every run.
  lemma StepTracks(g: Config, s: System, e: Event)
    requires Inv(g, s) && Enabled(s, e) && s.c.files == FilesOf(s.named)
    ensures Step(g, s, e).c.files == FilesOf(Step(g, s, e).named)
    ensures s.c.marks <= Step(g, s, e).c.marks
  {
    match e
    case Launch(id, hello) => JoinTracks(g, s, id, hello);
    case Fork(_, id, hello) => JoinTracks(g, s, id, hello);
    case Request => RequestTracks(g, s);
    case Deliver(id) => DeliverTracks(g, s, id);
    case Drop(id) => DropTracks(g, s, id);
    case Receive(_) =>
    case Advance(_, _, _) =>
  }

  lemma {:induction false} RunTracks(g: Config, s: System, es: seq<Event>)
    requires IsRun(g, s, es) && Inv(g, s) && s.c.files == FilesOf(s.named)
    ensures Final(g, s, es).c.files == FilesOf(Final(g, s, es).named)
    ensures s.c.marks <= Final(g, s, es).c.marks
    decreases es
  {
    if es != [] {
      StepInv(g, s, es[0]);
      StepTracks(g, s, es[0]);
      RunTracks(g, Step(g, s, es[0]), es[1..]);
    }
  }

  // Whenever a script is written, in any run, its maps are exactly the names delivered since the last request.
  lemma ScriptHoldsTheNames(g: Config, es: seq<Event>, id: nat)
    requires IsRun(g, START, es)
    requires var s := Final(g, START, es);
             Enabled(s, Deliver(id)) && s.w[id].toCoord[0].Filename? && Step(g, s, Deliver(id)).c.marks != s.c.marks
    ensures var s' := Step(g, Final(g, START, es), Deliver(id));
            s'.c.marks == Final(g, START, es).c.marks + [Wrote(FilesOf(s'.named))]
  {
    RunInv(g, START, es);
    RunTracks(g, START, es);
    NameTracks(g, Final(g, START, es), id);
  }

  // ----- runs without a join in the window -----

  ghost predicate Outside(g: Config, s: System, es: seq<Event>)
    requires IsRun(g, s, es)
    decreases es
  {
    es != [] ==> OutsideWindow(s, es[0]) && Outside(g, Step(g, s, es[0]), es[1..])
  }

  lemma {:induction false} RunInv1(g: Config, s: System, es: seq<Event>)
    requires IsRun(g, s, es) && Outside(g, s, es) && Inv1(g, s)
    ensures Inv1(g, Final(g, s, es))
    decreases es
  {
    if es != [] {
      StepInv1(g, s, es[0]);
      RunInv1(g, Step(g, s, es[0]), es[1..]);
    }
  }

  // A script holds one name for each worker that was released from DMT:WriteCkpt, and no other.
  lemma ScriptIsExact(g: Config, es: seq<Event>, id: nat)
    requires IsRun(g, START, es) && Outside(g, START, es)
    requires var s := Final(g, START, es);
             Enabled(s, Deliver(id)) && s.w[id].toCoord[0].Filename? && Step(g, s, Deliver(id)).c.marks != s.c.marks
    ensures Exact(Step(g, Final(g, START, es), Deliver(id)))
  {
    RunInv1(g, START, es);
    FilenameSingle(g, Final(g, START, es), id);
    ScriptHoldsTheNames(g, es, id);
  }

  // The name that completes the set of released workers, and no other, writes the script and closes the request.
  lemma ScriptWhenComplete(g: Config, es: seq<Event>, id: nat)
    requires IsRun(g, START, es) && Outside(g, START, es)
    requires Enabled(Final(g, START, es), Deliver(id)) && Final(g, START, es).w[id].toCoord[0].Filename?
    ensures var s := Final(g, START, es); var s' := Step(g, s, Deliver(id));
            && s.c.suspendMsgSent && id in s.released && id !in IdsOf(s.named)
            && s'.named == s.named + [(id, s.w[id].toCoord[0].ckpt)] && s'.released == s.released
            && if IdsOf(s'.named) == s'.released
               then s'.c.marks == s.c.marks + [Wrote(FilesOf(s'.named))] && !s'.c.suspendMsgSent
               else s'.c.marks == s.c.marks && s'.c.suspendMsgSent
  {
    RunInv1(g, START, es);
    RunInv(g, START, es);
    RunTracks(g, START, es);
    var s := Final(g, START, es);
    FilenameShape(g, s, id);
    NameTracks(g, s, id);
    OneMoreName(g, s, id, s.w[id].toCoord[0].ckpt);
  }

  // Workers are between DMT:SUSPEND and DMT:WriteCkpt only for a request that is open and has not been through
  // DMT:WriteCkpt before, and every script directly follows its request.
  ghost predicate InFlight(g: Config, s: System) {
    (1 <= s.stage <= g.wr && s.c.clients != [] ==> s.c.suspendMsgSent && !s.wrote) && Strict(s.c.marks)
  }

  lemma OneInFlight(g: Config, es: seq<Event>)
    requires IsRun(g, START, es) && Outside(g, START, es)
    ensures InFlight(g, Final(g, START, es))
  {
    RunInv1(g, START, es);
  }

  // Between two consecutive requests the log holds the script of the first one or a reset, then nothing
  // but resets.
  lemma OneScriptEach(g: Config, es: seq<Event>, i: nat, j: nat)
    requires IsRun(g, START, es) && Outside(g, START, es)
    requires var m := Final(g, START, es).c.marks;
             i < j < |m| && m[i].Started? && m[j].Started? && forall k :: i < k < j ==> !m[k].Started?
    ensures var m := Final(g, START, es).c.marks;
            i + 1 < j && (m[i + 1].Wrote? || m[i + 1].Reset?) && (forall k :: i + 1 < k < j ==> m[k].Reset?)
  {
    RunInv1(g, START, es);
    var m := Final(g, START, es).c.marks;
    InOrderMeans(m, i, j);
    forall k | i + 1 < k < j ensures m[k].Reset? {
      if m[k].Wrote? { StrictMeans(m, k); }
    }
  }

  // ----- a worker that vanishes owing its name -----

  ghost predicate Doomed(s: System, v: nat) {
    InWindow(s) && v in s.released && v !in IdsOf(s.named) && v !in s.w
  }

  lemma StepStaysDoomed(g: Config, s: System, e: Event, v: nat)
    requires Inv1(g, s) && Enabled(s, e) && OutsideWindow(s, e) && Doomed(s, v) && s.c.clients != []
    ensures Doomed(Step(g, s, e), v) && Step(g, s, e).c.marks == s.c.marks
  {
    match e
    case Launch(id, hello) => DoomedJoin(g, s, e, v);
    case Fork(_, id, hello) => DoomedJoin(g, s, e, v);
    case Request => AbsorbNothing(g, s, s.c);
    case Deliver(id) => DoomedDeliver(g, s, id, v);
    case Drop(id) => DoomedDrop(g, s, id, v);
    case _ =>
  }

  lemma DoomedJoin(g: Config, s: System, e: Event, v: nat)
    requires Inv1(g, s) && (e.Fork? || e.Launch?) && Enabled(s, e) && OutsideWindow(s, e) && Doomed(s, v)
        && s.c.clients != []
    ensures Step(g, s, e) == s
  {
    StageOfDoomedJoin(g, s, e);
  }

  lemma StageOfDoomedJoin(g: Config, s: System, e: Event)
    requires Inv(g, s) && (e.Fork? || e.Launch?) && Enabled(s, e) && s.c.suspendMsgSent && s.c.clients != []
    ensures !ConnectNew(s.c, e.id, e.hello).Aborted?
  {
    if e.Fork? { ForkNeverAborts(g, s, e); } else { JoinNeverAborts(g, s, e.id, e.hello); }
  }

  // Outside the stages up to DMT:WriteCkpt a release changes none of the history.
  lemma AbsorbHistory(g: Config, s: System, c: Coord, sends: seq<Send>)
    requires s.stage < |g.script| && s.stage != g.wr && (sends != [] && sends[0].ToAll? ==> sends[0].msg.Released?)
    ensures var s' := Absorb(g, s, c, sends);
            && s'.c == c && s'.released == s.released && s'.named == s.named && s'.wrote == s.wrote
            && s'.w.Keys <= s.w.Keys
  {
  }

  lemma DoomedDrop(g: Config, s: System, id: nat, v: nat)
    requires Inv1(g, s) && id in s.w && Doomed(s, v)
    ensures Doomed(Step(g, s, Drop(id)), v) && Step(g, s, Drop(id)).c.marks == s.c.marks
  {
    PlaceOf(g, s, id);
    DisconnectSameLog(s.c, id);
    AbsorbHistory(g, s, OnDisconnect(s.c, id).0, OnDisconnect(s.c, id).1);
  }

  lemma DoomedBarrier(g: Config, s: System, id: nat, v: nat)
    requires Inv1(g, s) && id in s.w && s.w[id].toCoord != [] && !s.w[id].toCoord[0].Filename? && Doomed(s, v)
    ensures Doomed(DeliverStep(g, s, id), v) && DeliverStep(g, s, id).c.marks == s.c.marks
  {
    QuietDelivery(g, s, id);
    PlaceOf(g, s, id);
    var r := OnData(s.c, id, s.w[id].toCoord[0]);
    AbsorbHistory(g, Taken(s, id), r.coord, r.sends);
  }

  lemma DoomedDeliver(g: Config, s: System, id: nat, v: nat)
    requires Inv1(g, s) && id in s.w && s.w[id].toCoord != [] && Doomed(s, v)
    ensures Doomed(DeliverStep(g, s, id), v) && DeliverStep(g, s, id).c.marks == s.c.marks
  {
    if s.w[id].toCoord[0].Filename? {
      PlaceOf(g, s, id);
      FilenameShape(g, s, id);
      OneMoreName(g, s, id, s.w[id].toCoord[0].ckpt);
    } else {
      DoomedBarrier(g, s, id, v);
    }
  }

  // A coordinator that lost its last worker either stays as it is or is reset.
  lemma EmptyStep(g: Config, s: System, e: Event)
    requires Inv(g, s) && s.c.clients == [] && Enabled(s, e)
    ensures Step(g, s, e) == s || s.c.marks + [Reset] <= Step(g, s, e).c.marks
  {
    assert s.w == map[];
    if e.Request? { AbsorbNothing(g, s, s.c); }
  }

  lemma {:induction false} StaysOpen(g: Config, s: System, es: seq<Event>, v: nat)
    requires Inv1(g, s) && IsRun(g, s, es) && Outside(g, s, es) && Doomed(s, v) && s.c.files == FilesOf(s.named)
    ensures var t := Final(g, s, es);
            (t.c.suspendMsgSent && t.c.marks == s.c.marks) || s.c.marks + [Reset] <= t.c.marks
    decreases es
  {
    if es != [] {
      var s1 := Step(g, s, es[0]);
      StepInv1(g, s, es[0]);
      StepTracks(g, s, es[0]);
      if s.c.clients != [] {
        StepStaysDoomed(g, s, es[0], v);
        StaysOpen(g, s1, es[1..], v);
      } else {
        EmptyStep(g, s, es[0]);
        if s1 == s {
          StaysOpen(g, s, es[1..], v);
        } else {
          RunTracks(g, s1, es[1..]);
        }
      }
    }
  }

  // A worker that vanishes between DMT:WriteCkpt and its name leaves the request open for good: whatever
  // follows, the next thing in the log is a reset.
  lemma RequestStaysOpen(g: Config, es: seq<Event>, more: seq<Event>, v: nat)
    requires IsRun(g, START, es) && Outside(g, START, es) && Doomed(Final(g, START, es), v)
    requires IsRun(g, Final(g, START, es), more) && Outside(g, Final(g, START, es), more)
    ensures var s := Final(g, START, es); var t := Final(g, s, more);
            (t.c.suspendMsgSent && t.c.marks == s.c.marks) || s.c.marks + [Reset] <= t.c.marks
  {
    RunInv1(g, START, es);
    RunTracks(g, START, es);
    StaysOpen(g, Final(g, START, es), more, v);
  }
}

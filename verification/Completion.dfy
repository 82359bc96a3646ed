/**
 How long a checkpoint takes: the steps that workers and connections still have to make are counted,
 every such step makes them one fewer whatever the order, and at zero everything is at rest.
 */
module Completion {
  import opened CoordinatorState
  import BarrierBookkeeping
  import opened CheckpointProtocol
  import opened OneCheckpoint
  import opened NeverStuck

  // ----- the work of one worker -----

  // Naming the image takes a step and a delivery, right after DMT:WriteCkpt.
  function NameWork(g: Config, next: nat): nat {
    if next == g.wr + 1 then 2 else 0
  }

  // From threads stopped before barrier `next`, the name apart: announce, deliver and be released for each
  // barrier, then resume and deliver that.
  function RestWork(g: Config, next: nat): nat
    decreases |g.script| - next
  {
    if next >= |g.script| then 2 else 3 + NameWork(g, next + 1) + RestWork(g, next + 1)
  }

  function After(g: Config, i: nat): nat {
    NameWork(g, i + 1) + RestWork(g, i + 1)
  }

  // Requests in front of a release, if there is one.
  function InFront(q: seq<CoordMsg>): nat {
    if q != [] && q[|q| - 1].Released? then |q| - 1 else |q|
  }

  function PcWork(g: Config, w: Worker): nat {
    match w.pc
    case Running => if w.inbox == [] then 0 else |w.inbox| + 4 + After(g, 0)
    case PreSuspend => |w.inbox| + 4 + After(g, 0)
    case AtBarrier(i, _) => InFront(w.inbox) + (if i == 0 then 2 else 1) + After(g, i)
    case Stopping => 1 + After(g, 0)
    case Stopped(next, named) => (if named then 0 else NameWork(g, next)) + RestWork(g, next)
    case AtRestart => 3
    case Restored => 2
    case Failed => 0
  }

  function WorkerWork(g: Config, w: Worker): nat {
    |w.toCoord| + PcWork(g, w)
  }

  lemma ReceiveWorks(g: Config, stage: nat, cl: Client, w: Worker)
    requires g.Valid() && Fits(g, stage, cl, w) && w.inbox != [] && Reads(w.pc)
    ensures WorkerWork(g, ReceiveStep(g, w)) == WorkerWork(g, w) - 1
  {
  }

  lemma AdvanceWorks(g: Config, stage: nat, cl: Client, w: Worker, unique: bool, ckpt: CkptFile)
    requires g.Valid() && Fits(g, stage, cl, w) && Acts(w.pc)
    ensures WorkerWork(g, AdvanceStep(g, w, unique, ckpt)) == WorkerWork(g, w) - 1
  {
  }

  lemma DeliverWorks(g: Config, w: Worker)
    requires w.toCoord != []
    ensures WorkerWork(g, w.(toCoord := w.toCoord[1..])) == WorkerWork(g, w) - 1
  {
  }

  // A release is already counted.
  lemma ReleaseWorks(g: Config, w: Worker, stage: nat, name: string, peers: nat)
    requires Waits(w, stage)
    ensures WorkerWork(g, w.(inbox := w.inbox + [Released(name, peers)])) == WorkerWork(g, w)
  {
    var q := w.inbox + [Released(name, peers)];
    assert q[|q| - 1].Released? && InFront(w.inbox) == |w.inbox|;
  }

  // ----- the work of all -----

  ghost function Work(g: Config, w: map<nat, Worker>, cs: seq<Client>): nat {
    if cs == [] then 0
    else (if cs[0].id in w then WorkerWork(g, w[cs[0].id]) else 0) + Work(g, w, cs[1..])
  }

  lemma {:induction false} SameWork(g: Config, w: map<nat, Worker>, cs: seq<Client>, w': map<nat, Worker>,
      cs': seq<Client>)
    requires |cs| == |cs'| && forall i :: 0 <= i < |cs| ==> cs'[i].id == cs[i].id
    requires forall i :: 0 <= i < |cs| ==> (cs[i].id in w <==> cs[i].id in w')
    requires forall i :: 0 <= i < |cs| && cs[i].id in w ==> WorkerWork(g, w'[cs[i].id]) == WorkerWork(g, w[cs[i].id])
    ensures Work(g, w', cs') == Work(g, w, cs)
    decreases |cs|
  {
    if cs != [] {
      forall i | 0 <= i < |cs| - 1 ensures cs[1..][i] == cs[i + 1] && cs'[1..][i] == cs'[i + 1] {
      }
      SameWork(g, w, cs[1..], w', cs'[1..]);
    }
  }

  // One worker's work is one less.
  lemma {:induction false} OneLess(g: Config, w: map<nat, Worker>, cs: seq<Client>, id: nat, x: Worker)
    requires UniqueIds(cs) && HasClient(cs, id) && id in w && WorkerWork(g, x) == WorkerWork(g, w[id]) - 1
    ensures Work(g, w[id := x], cs) == Work(g, w, cs) - 1
    decreases |cs|
  {
    if cs[0].id == id {
      forall i | 0 <= i < |cs| - 1 ensures cs[1..][i].id != id {
        assert cs[1..][i] == cs[i + 1];
      }
      SameWork(g, w, cs[1..], w[id := x], cs[1..]);
    } else {
      var k :| 0 <= k < |cs| && cs[k].id == id;
      assert cs[1..][k - 1].id == id;
      OneLess(g, w, cs[1..], id, x);
    }
  }

  ghost function Left(g: Config, s: System): nat {
    Work(g, s.w, s.c.clients)
  }

  // ----- every step of a worker or a connection -----

  predicate OwnStep(e: Event) {
    e.Deliver? || e.Receive? || e.Advance?
  }

  lemma TakenLess(g: Config, s: System, id: nat)
    requires Wired(g, s) && id in s.w && s.w[id].toCoord != []
    ensures Left(g, Taken(s, id)) == Left(g, s) - 1
  {
    DeliverWorks(g, s.w[id]);
    OneLess(g, s.w, s.c.clients, id, s.w[id].(toCoord := s.w[id].toCoord[1..]));
  }

  lemma RecordsSame(g: Config, s: System, client: Client, c: Coord)
    requires Wired(g, s) && c.clients == Update(s.c.clients, client)
    ensures Left(g, s.(c := c)) == Left(g, s)
  {
    UpdateKeepsIds(s.c.clients, client);
    SameWork(g, s.w, s.c.clients, s.w, c.clients);
  }

  lemma ReleaseSame(g: Config, s: System)
    requires Core(g, s) && s.c.clients != [] && s.c.currentBarrier != ""
    ensures Left(g, Absorb(g, s, ReleaseBarrier(s.c).0, ReleaseBarrier(s.c).1)) == Left(g, s)
  {
    var s' := Absorb(g, s, ReleaseBarrier(s.c).0, ReleaseBarrier(s.c).1);
    if s.c.atBarrier != |s.c.clients| {
      AbsorbNothing(g, s, s.c);
    } else {
      ReleasedShape(g, s, s');
      AllArrived(g, s);
      forall id | id in s.w ensures WorkerWork(g, s'.w[id]) == WorkerWork(g, s.w[id]) {
        ReleaseWorks(g, s.w[id], s.stage, g.script[s.stage], |s.c.clients|);
      }
      SameWork(g, s.w, s.c.clients, s'.w, s'.c.clients);
    }
  }

  lemma BarrierLess(g: Config, s: System, id: nat)
    requires Inv(g, s) && id in s.w && s.w[id].toCoord != [] && s.w[id].toCoord[0].Barrier?
    ensures Left(g, DeliverStep(g, s, id)) == Left(g, s) - 1
  {
    BarrierCore(g, s, id);
    TakenLess(g, s, id);
    var msg := s.w[id].toCoord[0];
    var there := Find(s.c.clients, id).(state := msg.state, barrier := msg.name);
    var c := BarrierBookkeeping.Arrived(s.c, there);
    var s1 := Taken(s, id).(c := c);
    RecordsSame(g, Taken(s, id), there, c);
    assert c.clients != [] by { assert HasClient(c.clients, id); }
    ReleaseSame(g, s1);
    AbsorbSame(g, Taken(s, id), s1, ReleaseBarrier(c).0, ReleaseBarrier(c).1);
  }

  lemma ResumingLess(g: Config, s: System, id: nat)
    requires Inv(g, s) && id in s.w && s.w[id].toCoord != [] && s.w[id].toCoord[0].Resuming?
    ensures Left(g, DeliverStep(g, s, id)) == Left(g, s) - 1
  {
    ResumingCore(g, s, id);
    TakenLess(g, s, id);
    var c := OnResuming(s.c, id, RUNNING);
    RecordsSame(g, Taken(s, id), Find(s.c.clients, id).(state := RUNNING, barrier := ""), c);
    AbsorbNothing(g, Taken(s, id), c);
  }

  lemma FilenameLess(g: Config, s: System, id: nat)
    requires Inv(g, s) && id in s.w && s.w[id].toCoord != [] && s.w[id].toCoord[0].Filename?
    ensures Left(g, DeliverStep(g, s, id)) == Left(g, s) - 1
  {
    DeliverFilename(g, s, id);
    TakenLess(g, s, id);
  }

  lemma StepLess(g: Config, s: System, e: Event)
    requires Inv(g, s) && Enabled(s, e) && OwnStep(e)
    ensures Left(g, Step(g, s, e)) == Left(g, s) - 1
  {
    PlaceOf(g, s, e.id);
    var cl, w := Find(s.c.clients, e.id), s.w[e.id];
    match e
    case Deliver(id) =>
      DeliverFits(g, s.stage, cl, w);
      if w.toCoord[0].Barrier? {
        BarrierLess(g, s, id);
      } else if w.toCoord[0].Filename? {
        FilenameLess(g, s, id);
      } else {
        ResumingLess(g, s, id);
      }
    case Receive(id) =>
      ReceiveWorks(g, s.stage, cl, w);
      OneLess(g, s.w, s.c.clients, id, ReceiveStep(g, w));
    case Advance(id, unique, ckpt) =>
      AdvanceWorks(g, s.stage, cl, w, unique, ckpt);
      OneLess(g, s.w, s.c.clients, id, AdvanceStep(g, w, unique, ckpt));
  }

  predicate OwnSteps(es: seq<Event>) {
    forall i :: 0 <= i < |es| ==> OwnStep(es[i])
  }

  lemma {:induction false} RunLess(g: Config, s: System, es: seq<Event>)
    requires Inv2(g, s) && IsRun(g, s, es) && OwnSteps(es)
    ensures Left(g, Final(g, s, es)) == Left(g, s) - |es| && Inv2(g, Final(g, s, es))
    decreases es
  {
    if es != [] {
      assert OwnStep(es[0]);
      StepLess(g, s, es[0]);
      StepInv2(g, s, es[0]);
      RunLess(g, Step(g, s, es[0]), es[1..]);
    }
  }

  // ----- at the end -----

  lemma {:induction false} NoWork(g: Config, w: map<nat, Worker>, cs: seq<Client>)
    ensures Work(g, w, cs) == 0 <==> forall i :: 0 <= i < |cs| && cs[i].id in w ==> WorkerWork(g, w[cs[i].id]) == 0
    decreases |cs|
  {
    if cs != [] {
      NoWork(g, w, cs[1..]);
      assert forall i :: 0 <= i < |cs| - 1 ==> cs[1..][i] == cs[i + 1];
      if forall i :: 0 <= i < |cs| && cs[i].id in w ==> WorkerWork(g, w[cs[i].id]) == 0 {
        forall i | 0 <= i < |cs| - 1 && cs[1..][i].id in w ensures WorkerWork(g, w[cs[1..][i].id]) == 0 {
          assert cs[i + 1].id in w;
        }
      }
    }
  }

  // A worker with nothing left to do runs its user threads.
  lemma EaseIsNoWork(g: Config, stage: nat, cl: Client, w: Worker)
    requires g.Valid() && Fits(g, stage, cl, w)
    ensures WorkerWork(g, w) == 0 <==> AtEase(w)
  {
  }

  // Nothing is left exactly when all is quiet.
  lemma NothingLeft(g: Config, s: System)
    requires Inv2(g, s)
    ensures Left(g, s) == 0 <==> Quiet(s)
  {
    NoWork(g, s.w, s.c.clients);
    if Quiet(s) {
      forall i | 0 <= i < |s.c.clients| && s.c.clients[i].id in s.w
        ensures WorkerWork(g, s.w[s.c.clients[i].id]) == 0
      {
        NobodyWaits(g, s, s.c.clients[i].id);
      }
    }
    if Left(g, s) == 0 {
      forall id | id in s.w ensures AtEase(s.w[id]) {
        PlaceOf(g, s, id);
        var i :| 0 <= i < |s.c.clients| && s.c.clients[i].id == id;
        EaseIsNoWork(g, s.stage, Find(s.c.clients, id), s.w[id]);
      }
    }
  }

  // A state that is not quiet has a step to make.
  lemma SomeStep(s: System) returns (e: Event)
    requires !Quiet(s)
    ensures OwnStep(e) && Enabled(s, e)
  {
    var id :| id in s.w && !(s.w[id].toCoord == [] && !Acts(s.w[id].pc) && !(s.w[id].inbox != [] && Reads(s.w[id].pc)));
    e := if s.w[id].toCoord != [] then Deliver(id)
         else if Acts(s.w[id].pc) then Advance(id, false, CkptFile("", "", "")) else Receive(id);
  }

  // The checkpoint is over: everybody runs, and the script is written unless a worker vanished owing its name.
  ghost predicate Completed(s: System) {
    && (forall id :: id in s.w ==> AtEase(s.w[id]))
    && (s.c.clients != [] && s.c.suspendMsgSent ==> exists v :: Doomed(s, v))
  }

  // Left alone, whatever the order of their steps, the workers complete any checkpoint in exactly the number of
  // steps that are left, and can always make the next one until then.
  lemma Completes(g: Config, es: seq<Event>, more: seq<Event>)
    requires IsRun(g, START, es) && Outside(g, START, es)
    requires IsRun(g, Final(g, START, es), more) && OwnSteps(more)
    ensures var s := Final(g, START, es); var t := Final(g, s, more);
            && |more| <= Left(g, s)
            && if |more| == Left(g, s) then Completed(t) else exists e :: OwnStep(e) && Enabled(t, e)
  {
    RunInv2(g, START, es);
    var s := Final(g, START, es);
    RunLess(g, s, more);
    var t := Final(g, s, more);
    NothingLeft(g, t);
    if |more| == Left(g, s) {
      AtRest(g, t);
    } else {
      var e := SomeStep(t);
    }
  }
}

/**
 A worker's checkpoint thread as the program writes it: one pass through the barrier script,
 sending on its connection and blocking in reads.  Its moves are the worker steps of the
 protocol model.
 */
module WorkerThread {
  import opened CoordinatorState
  import opened CheckpointProtocol

  // Blocked: waiting in a read with nothing to read.  Dead: an assertion fired.
  datatype End = Done | Blocked | Dead

  // The thread's next step: a read where it waits for a message, else a step of its own.
  function Move(g: Config, w: Worker, unique: bool, ckpt: CkptFile): Worker {
    if Reads(w.pc) then (if w.inbox == [] then w else ReceiveStep(g, w))
    else AdvanceStep(g, w, unique, ckpt)
  }

  function Moves(g: Config, w: Worker, unique: bool, ckpt: CkptFile, n: nat): Worker
    decreases n
  {
    if n == 0 then w else Moves(g, Move(g, w, unique, ckpt), unique, ckpt, n - 1)
  }

  lemma {:induction false} MovesThen(g: Config, w: Worker, unique: bool, ckpt: CkptFile, a: nat, b: nat)
    ensures Moves(g, w, unique, ckpt, a + b) == Moves(g, Moves(g, w, unique, ckpt, a), unique, ckpt, b)
    decreases a
  {
    if a > 0 { MovesThen(g, Move(g, w, unique, ckpt), unique, ckpt, a - 1, b); }
  }

  // What a pass has sent once it is released from the first n barriers and, if due, has named its image.
  function Sent(g: Config, unique: bool, ckpt: CkptFile, n: nat): seq<WorkerMsg>
    requires n <= |g.script|
  {
    if n == 0 then []
    else Sent(g, unique, ckpt, n - 1) + [Barrier(g.StateAt(n - 1), g.script[n - 1])]
         + if n == g.wr + 1 then [Filename(CHECKPOINTED, unique, ckpt)] else []
  }

  // Without plugin barriers a pass says this, in this order.
  lemma DefaultPass(unique: bool, ckpt: CkptFile, restart: string)
    ensures Sent(Config(["DMT:SUSPEND", "DMT:CHECKPOINT", "DMT:WriteCkpt"], 2, restart), unique, ckpt, 3) ==
            [Barrier(PRESUSPEND, "DMT:SUSPEND"), Barrier(SUSPENDED, "DMT:CHECKPOINT"),
             Barrier(CHECKPOINTED, "DMT:WriteCkpt"), Filename(CHECKPOINTED, unique, ckpt)]
  {
    var g := Config(["DMT:SUSPEND", "DMT:CHECKPOINT", "DMT:WriteCkpt"], 2, restart);
    assert Sent(g, unique, ckpt, 0) == [];
    assert Sent(g, unique, ckpt, 1) == [Barrier(PRESUSPEND, "DMT:SUSPEND")];
    assert Sent(g, unique, ckpt, 2) == [Barrier(PRESUSPEND, "DMT:SUSPEND"), Barrier(SUSPENDED, "DMT:CHECKPOINT")];
  }

  class CkptThread {
    var pc: Pc
    var toCoord: seq<WorkerMsg>
    var inbox: seq<CoordMsg>

    function View(): Worker
      reads this
    {
      Worker(pc, toCoord, inbox)
    }

    constructor (inbox: seq<CoordMsg>)
      ensures View() == Worker(Running, [], inbox)
    {
      pc, toCoord, this.inbox := Running, [], inbox;
    }

    // Announces barrier i and reads until released, over at most one duplicate request.
    method WaitForBarrier(g: Config, i: nat, unique: bool, ckpt: CkptFile) returns (end: End, ghost n: nat)
      requires i < |g.script| && (if i == 0 then pc == PreSuspend else pc.Stopped? && pc.next == i)
      requires i == g.wr + 1 && i > 0 ==> pc.named
      modifies this
      ensures View() == Moves(g, old(View()), unique, ckpt, n)
      ensures toCoord == old(toCoord) + [Barrier(g.StateAt(i), g.script[i])]
      ensures end.Done? ==> pc == if i == 0 then Stopping else Stopped(i + 1, false)
      ensures end.Blocked? ==> inbox == [] && pc.AtBarrier? && pc.i == i
      ensures end.Dead? ==> pc.Failed?
    {
      toCoord := toCoord + [Barrier(g.StateAt(i), g.script[i])];
      pc := AtBarrier(i, false);
      end, n := AwaitRelease(g, i, unique, ckpt);
      MovesThen(g, old(View()), unique, ckpt, 1, n);
      n := n + 1;
    }

    method AwaitRelease(g: Config, i: nat, unique: bool, ckpt: CkptFile) returns (end: End, ghost n: nat)
      requires i < |g.script| && pc == AtBarrier(i, false)
      modifies this`pc, this`inbox
      ensures View() == Moves(g, old(View()), unique, ckpt, n)
      ensures end.Done? ==> pc == if i == 0 then Stopping else Stopped(i + 1, false)
      ensures end.Blocked? ==> inbox == [] && pc.AtBarrier? && pc.i == i
      ensures end.Dead? ==> pc.Failed?
    {
      n := 0;
      if inbox == [] { return Blocked, 0; }
      var msg := inbox[0];
      inbox := inbox[1..];
      if msg.DoCheckpoint? {
        pc := AtBarrier(i, true);
        n := 1;
        if inbox == [] { return Blocked, 1; }
        msg := inbox[0];
        inbox := inbox[1..];
      }
      if !msg.Released? || msg.name != g.script[i] {
        pc, end := Failed, Dead;
      } else {
        pc, end := if i == 0 then Stopping else Stopped(i + 1, false), Done;
      }
      MovesThen(g, old(View()), unique, ckpt, n, 1);
      n := n + 1;
    }

    // sendCkptFilename
    method SendName(g: Config, unique: bool, ckpt: CkptFile)
      requires pc == Stopped(g.wr + 1, false)
      modifies this`pc, this`toCoord
      ensures View() == Move(g, old(View()), unique, ckpt) && pc == Stopped(g.wr + 1, true)
      ensures toCoord == old(toCoord) + [Filename(CHECKPOINTED, unique, ckpt)]
    {
      toCoord := toCoord + [Filename(CHECKPOINTED, unique, ckpt)];
      pc := Stopped(g.wr + 1, true);
    }

    // waitForPreSuspendMessage, the locks, DMT:SUSPEND, and the user threads stop.
    method Suspend(g: Config, unique: bool, ckpt: CkptFile) returns (end: End, ghost n: nat)
      requires g.Valid() && pc.Running?
      modifies this
      ensures View() == Moves(g, old(View()), unique, ckpt, n)
      ensures end.Done? ==> pc == Stopped(1, false) && toCoord == old(toCoord) + Sent(g, unique, ckpt, 1)
      ensures end.Blocked? ==> inbox == []
      ensures end.Dead? ==> pc.Failed?
    {
      if inbox == [] { return Blocked, 0; }
      var msg := inbox[0];
      inbox := inbox[1..];
      if !msg.DoCheckpoint? {
        pc := Failed;
        return Dead, 1;
      }
      pc := PreSuspend;
      end, n := WaitForBarrier(g, 0, unique, ckpt);
      MovesThen(g, old(View()), unique, ckpt, 1, n);
      n := n + 1;
      if !end.Done? { return; }
      pc := Stopped(1, false);
      MovesThen(g, old(View()), unique, ckpt, n, 1);
      n := n + 1;
      assert Sent(g, unique, ckpt, 1) == [Barrier(PRESUSPEND, g.script[0])];
    }

    // One checkpoint from request to resumption: every message of the script, once and in order.
    method Checkpoint(g: Config, unique: bool, ckpt: CkptFile) returns (end: End, ghost n: nat)
      requires g.Valid() && pc.Running?
      modifies this
      ensures View() == Moves(g, old(View()), unique, ckpt, n)
      ensures end.Done? ==>
          pc.Running? && toCoord == old(toCoord) + Sent(g, unique, ckpt, |g.script|) + [Resuming(RUNNING)]
      ensures end.Blocked? ==> inbox == []
      ensures end.Dead? ==> pc.Failed?
    {
      end, n := Suspend(g, unique, ckpt);
      if !end.Done? { return; }
      var i := 1;
      while i < |g.script|
        invariant 1 <= i <= |g.script| && end.Done?
        invariant pc == Stopped(i, i == g.wr + 1)
        invariant View() == Moves(g, old(View()), unique, ckpt, n)
        invariant toCoord == old(toCoord) + Sent(g, unique, ckpt, i)
      {
        ghost var was, more := n, 0;
        end, more := PassBarrier(g, i, unique, ckpt, old(toCoord));
        MovesThen(g, old(View()), unique, ckpt, was, more);
        n := was + more;
        if !end.Done? { return; }
        i := i + 1;
      }
      toCoord := toCoord + [Resuming(RUNNING)];
      pc := Running;
      MovesThen(g, old(View()), unique, ckpt, n, 1);
      n := n + 1;
    }

    method PassBarrier(g: Config, i: nat, unique: bool, ckpt: CkptFile, ghost first: seq<WorkerMsg>)
        returns (end: End, ghost n: nat)
      requires 1 <= i < |g.script| && pc == Stopped(i, i == g.wr + 1) && toCoord == first + Sent(g, unique, ckpt, i)
      modifies this
      ensures View() == Moves(g, old(View()), unique, ckpt, n)
      ensures end.Done? ==> pc == Stopped(i + 1, i == g.wr) && toCoord == first + Sent(g, unique, ckpt, i + 1)
      ensures end.Blocked? ==> inbox == []
      ensures end.Dead? ==> pc.Failed?
    {
      end, n := WaitForBarrier(g, i, unique, ckpt);
      if end.Done? && i == g.wr {
        SendName(g, unique, ckpt);
        MovesThen(g, old(View()), unique, ckpt, n, 1);
        n := n + 1;
      }
    }
  }
}

/**
 What the coordinator does with an arrival, a departure and an image name, said of the clients'
 records: who is thrown out, who is recorded where, and exactly when a barrier is released.
 */
module BarrierRules {
  import opened CoordinatorState
  import opened BarrierBookkeeping

  // Everybody is recorded at the barrier, and all announced restart peers are there.
  predicate Complete(cs: seq<Client>, name: string, peers: int) {
    (forall i :: 0 <= i < |cs| ==> cs[i].barrier == name) && (peers > 0 ==> |cs| == peers)
  }

  // Client id has this record, and the others have the ones they had.
  ghost predicate OnlyRecord(cs: seq<Client>, cs': seq<Client>, client: Client) {
    && |cs'| == |cs|
    && forall i :: 0 <= i < |cs| ==> cs'[i] == if cs[i].id == client.id then client else cs[i]
  }

  // Only client id is gone.
  ghost predicate OnlyGone(cs: seq<Client>, cs': seq<Client>, id: nat) {
    |cs'| == |cs| - 1 && forall x :: x in cs' <==> x in cs && x.id != id
  }

  // The barrier is over: everybody is told its name and how many they are.
  ghost predicate Over(c': Coord, sends: seq<Send>, name: string) {
    && sends == [ToAll(Released(name, |c'.clients|))] && c'.prevBarrier == name && c'.currentBarrier == ""
    && c'.atBarrier == 0 && c'.numCkptWorkers == |c'.clients| && !c'.restartPending
  }

  ghost predicate Pending(c: Coord, c': Coord, sends: seq<Send>, name: string) {
    && sends == [] && c'.currentBarrier == name && c'.prevBarrier == c.prevBarrier
    && c'.numCkptWorkers == c.numCkptWorkers && c'.restartPending == c.restartPending
  }

  lemma ReleasesExactly(c: Coord)
    requires Counted(c) && c.clients != [] && c.currentBarrier != ""
    ensures var (c', sends) := ReleaseBarrier(c);
            && c'.clients == c.clients
            && if Complete(c.clients, c.currentBarrier, c.numRestartPeers) then Over(c', sends, c.currentBarrier)
               else c' == c && sends == []
  {
    CountBounds(c.clients, c.currentBarrier);
  }

  // Whoever comes to another barrier than the pending one is thrown out, whoever comes again is ignored, and
  // whoever completes a barrier releases it.
  lemma ArrivalExactly(c: Coord, id: nat, state: WorkerState, name: string)
    requires HasClient(c.clients, id) && Counted(c) && Polite(c, Data(id, Barrier(state, name)))
    ensures var was, (c', sends) := Find(c.clients, id), OnBarrier(c, id, state, name);
            if c.currentBarrier != "" && name != c.currentBarrier then OnlyGone(c.clients, c'.clients, id)
            else
              && OnlyRecord(c.clients, c'.clients, was.(state := state, barrier := name))
              && if was.barrier == name then c' == c.(clients := c'.clients) && sends == []
                 else if Complete(c'.clients, name, c.numRestartPeers) then Over(c', sends, name)
                 else Pending(c, c', sends, name) && c'.atBarrier == c.atBarrier + 1
  {
    if c.currentBarrier != "" && name != c.currentBarrier {
      WrongBarrier(c, id, state, name);
    } else if Find(c.clients, id).barrier == name {
      SameBarrier(c, id, state, name);
    } else {
      NewArrival(c, id, state, name);
    }
  }

  lemma WrongBarrier(c: Coord, id: nat, state: WorkerState, name: string)
    requires HasClient(c.clients, id) && UniqueIds(c.clients) && c.currentBarrier != "" && name != c.currentBarrier
    ensures OnlyGone(c.clients, OnBarrier(c, id, state, name).0.clients, id)
  {
    var mid := Find(c.clients, id).(state := state);
    UpdateKeepsIds(c.clients, mid);
    GoneAfterUpdate(c.clients, mid);
    var c1 := c.(clients := Update(c.clients, mid));
    assert OnBarrier(c, id, state, name) == OnDisconnect(c1, id);
    assert OnDisconnect(c1, id).0.clients == Remove(c1.clients, id);
  }

  lemma SameBarrier(c: Coord, id: nat, state: WorkerState, name: string)
    requires HasClient(c.clients, id) && UniqueIds(c.clients) && (c.currentBarrier == "" || name == c.currentBarrier)
    requires Find(c.clients, id).barrier == name
    ensures var (c', sends) := OnBarrier(c, id, state, name);
            && OnlyRecord(c.clients, c'.clients, Find(c.clients, id).(state := state, barrier := name))
            && c' == c.(clients := c'.clients) && sends == []
  {
    var mid := Find(c.clients, id).(state := state);
    UpdateAt(c.clients, mid);
    assert mid == Find(c.clients, id).(state := state, barrier := name);
  }

  lemma NewArrival(c: Coord, id: nat, state: WorkerState, name: string)
    requires HasClient(c.clients, id) && Counted(c) && Polite(c, Data(id, Barrier(state, name)))
    requires (c.currentBarrier == "" || c.currentBarrier == name) && Find(c.clients, id).barrier != name
    ensures var was, (c', sends) := Find(c.clients, id), OnBarrier(c, id, state, name);
            && OnlyRecord(c.clients, c'.clients, was.(state := state, barrier := name))
            && if Complete(c'.clients, name, c.numRestartPeers) then Over(c', sends, name)
               else Pending(c, c', sends, name) && c'.atBarrier == c.atBarrier + 1
  {
    var there := Find(c.clients, id).(state := state, barrier := name);
    BarrierArrives(c, id, state, name);
    UpdateAt(c.clients, there);
    ReleasesExactly(Arrived(c, there));
  }

  lemma GoneAfterUpdate(cs: seq<Client>, client: Client)
    requires UniqueIds(cs) && HasClient(cs, client.id)
    ensures OnlyGone(cs, Remove(Update(cs, client), client.id), client.id)
  {
    UpdateAt(cs, client);
    UpdateKeepsIds(cs, client);
    RemoveAt(Update(cs, client), client.id);
    forall x ensures (x in Update(cs, client) && x.id != client.id) <==> (x in cs && x.id != client.id) {
      if x in cs && x.id != client.id {
        var i :| 0 <= i < |cs| && cs[i] == x;
        assert Update(cs, client)[i] == x;
      }
      if x in Update(cs, client) && x.id != client.id {
        var i :| 0 <= i < |cs| && Update(cs, client)[i] == x;
        assert cs[i] == x;
      }
    }
  }

  // A departure is a release exactly when those who stay have all arrived.
  lemma DepartureExactly(c: Coord, id: nat)
    requires HasClient(c.clients, id) && Counted(c)
    ensures var (c', sends) := OnDisconnect(c, id);
            && OnlyGone(c.clients, c'.clients, id)
            && if c'.clients != [] && c.currentBarrier != ""
                  && Complete(c'.clients, c.currentBarrier, c.numRestartPeers)
               then Over(c', sends, c.currentBarrier)
               else Pending(c, c', sends, c.currentBarrier)
  {
    RemoveAt(c.clients, id);
    DepartedCounted(c, id);
    var c1 := Departed(c, id);
    if c1.clients != [] && c.currentBarrier != "" { ReleasesExactly(c1); }
  }

  // A name is refused exactly for an unknown shell kind.  It marks its sender, and one unique name is enough for
  // the whole checkpoint; the script comes with the last name that was expected.
  lemma NameExactly(c: Coord, id: nat, unique: bool, ckpt: CkptFile)
    requires HasClient(c.clients, id) && UniqueIds(c.clients)
    ensures var r := OnFilename(c, id, unique, ckpt);
            && (r.Ok? <==> ckpt.shell == "" || ckpt.shell == "rsh" || ckpt.shell == "ssh")
            && (r.Ok? ==>
                  && OnlyRecord(c.clients, r.coord.clients, Find(c.clients, id).(state := CHECKPOINTED))
                  && (r.coord.uniqueCkptFilenames <==> c.uniqueCkptFilenames || unique) && r.sends == []
                  && if c.numRestartFilenames + 1 == c.numCkptWorkers
                     then r.coord.marks == c.marks + [Wrote(r.coord.files)] && !r.coord.suspendMsgSent
                          && r.coord.numRestartFilenames == 0 && r.coord.numCkptWorkers == 0
                     else r.coord.marks == c.marks && r.coord.suspendMsgSent == c.suspendMsgSent
                          && r.coord.numRestartFilenames == c.numRestartFilenames + 1
                          && r.coord.numCkptWorkers == c.numCkptWorkers)
  {
    UpdateAt(c.clients, Find(c.clients, id).(state := CHECKPOINTED));
  }
}

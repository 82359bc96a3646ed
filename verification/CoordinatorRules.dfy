/**
 When the coordinator starts a checkpoint and whom it lets in, said of the states of its
 clients alone, for any number of them.
 */
module CoordinatorRules {
  import opened CoordinatorState

  predicate AllIn(cs: seq<Client>, state: WorkerState) {
    forall i :: 0 <= i < |cs| ==> cs[i].state == state
  }

  predicate SomeIn(cs: seq<Client>, state: WorkerState) {
    exists i :: 0 <= i < |cs| && cs[i].state == state
  }

  // Nobody is behind SUSPENDED and somebody is there.
  predicate LeastSuspended(cs: seq<Client>) {
    SomeIn(cs, SUSPENDED) && !SomeIn(cs, UNKNOWN) && !SomeIn(cs, RUNNING) && !SomeIn(cs, PRESUSPEND)
  }

  lemma MinStateExactly(cs: seq<Client>)
    requires cs != []
    ensures MinState(cs) == UNKNOWN <==> SomeIn(cs, UNKNOWN)
    ensures MinState(cs) == RUNNING <==> SomeIn(cs, RUNNING) && !SomeIn(cs, UNKNOWN)
    ensures MinState(cs) == SUSPENDED <==> LeastSuspended(cs)
    ensures MinState(cs) == RESTARTING <==> AllIn(cs, RESTARTING)
    ensures (forall i :: 0 <= i < |cs| ==> cs[i].state == MinState(cs)) <==>
              forall i, j :: 0 <= i < |cs| && 0 <= j < |cs| ==> cs[i].state == cs[j].state
  {
    MinStateIsMinimum(cs);
    var k :| 0 <= k < |cs| && cs[k].state == MinState(cs);
  }

  // ----- unanimity and requests -----

  // All states are equal, and it is not a restart that still waits for peers.
  predicate Unanimous(c: Coord) {
    && (forall i, j :: 0 <= i < |c.clients| && 0 <= j < |c.clients| ==> c.clients[i].state == c.clients[j].state)
    && !(c.clients != [] && AllIn(c.clients, RESTARTING) && |c.clients| < c.numRestartPeers)
  }

  lemma UnanimousExactly(c: Coord)
    ensures GetStatus(c).unanimous <==> Unanimous(c)
  {
    if c.clients != [] { MinStateExactly(c.clients); }
  }

  predicate Startable(c: Coord) {
    c.clients != [] && AllIn(c.clients, RUNNING) && !c.suspendMsgSent
  }

  // A checkpoint starts exactly when there are workers, all run and no request is open, whatever restart peers
  // were announced; then it empties the account of names and asks everybody.
  lemma StartsExactly(c: Coord)
    ensures var (c', sends) := StartCheckpoint(c);
            if Startable(c)
            then sends == [ToAll(DoCheckpoint)] && c'.suspendMsgSent && c'.clients == c.clients
                 && c'.marks == c.marks + [Started(c.generation + 1)] && c'.generation == c.generation + 1
                 && c'.numRestartFilenames == 0 && c'.files == NO_FILES && !c'.uniqueCkptFilenames
                 && c'.numRestartPeers < 0 && c'.comp == c.comp && c'.currentBarrier == c.currentBarrier
            else c' == c && sends == []
  {
    if c.clients != [] { MinStateExactly(c.clients); }
  }

  // ----- admission -----

  // The first one, or one more of the same restart while all who are there restart.
  predicate AdmitsRestart(c: Coord, hello: Hello) {
    && hello.state == RESTARTING
    && (c.clients != [] ==>
          if c.comp == NO_COMP then SomeIn(c.clients, UNKNOWN)
          else AllIn(c.clients, RESTARTING) && hello.comp == c.comp
               && hello.peers == c.numRestartPeers % 0x1_0000_0000)
  }

  predicate StopsRestart(c: Coord, hello: Hello) {
    hello.state == RESTARTING && c.clients != [] && c.comp == NO_COMP && !SomeIn(c.clients, UNKNOWN)
  }

  lemma RestartExactly(c: Coord, id: nat, hello: Hello)
    ensures var a := ConnectRestart(c, id, hello);
            && (a.Admitted? <==> AdmitsRestart(c, hello)) && (a.Aborted? <==> StopsRestart(c, hello))
            && (a.Refused? ==> a.coord.clients == c.clients)
            && (a.Admitted? ==> a.coord.clients == c.clients + [Client(id, RESTARTING, "", hello)] && a.sends == []
                                && a.coord.comp == hello.comp)
  {
    if c.clients != [] { MinStateExactly(c.clients); }
  }

  // In a started checkpoint anybody, unless the least advanced is SUSPENDED; else a worker of no computation
  // while some worker runs or has just come.
  predicate AdmitsNew(c: Coord, hello: Hello) {
    && (hello.state == RUNNING || hello.state == UNKNOWN)
    && if c.clients != [] && c.suspendMsgSent then !LeastSuspended(c.clients)
       else hello.comp == NO_COMP
            && (c.clients != [] ==> SomeIn(c.clients, RUNNING) || SomeIn(c.clients, UNKNOWN))
  }

  predicate StopsNew(c: Coord, hello: Hello) {
    && (hello.state == RUNNING || hello.state == UNKNOWN)
    && c.clients != [] && c.suspendMsgSent && LeastSuspended(c.clients)
  }

  lemma NewExactly(c: Coord, id: nat, hello: Hello)
    ensures var a := ConnectNew(c, id, hello);
            && (a.Admitted? <==> AdmitsNew(c, hello)) && (a.Aborted? <==> StopsNew(c, hello))
            && (a.Refused? ==> a.coord.clients == c.clients)
            && (a.Admitted? ==>
                  && a.coord.clients == c.clients + [Client(id, hello.state, "", hello)]
                  && a.sends == (if c.clients != [] && c.suspendMsgSent then [ToOne(id, DoCheckpoint)] else [])
                  && (c.clients != [] && c.comp != NO_COMP ==> a.coord.comp == c.comp))
  {
    if c.clients != [] { MinStateExactly(c.clients); }
  }
}

/**
 The cyclic barrier in shared memory (mixed-architecture branch): a file lock, an arrival
 counter and a 32-bit round number that is also the futex word.

 Steps are single accesses and system calls of any number of processes.  futex_wait returns
 only when woken or, with EAGAIN, when the round number has moved on.
 */
module SharedBarrier {

  type Pid = nat      // 0 is nobody

  const WORD := 0x1_0000_0000

  datatype Pc =
    | Out
    | Enter                    // lockFile
    | Join                     // ++numIn
    | Note                     // read curRound
    | Leave                    // unlockFile
    | Test                     // numIn < numCkptPeers
    | Wait                     // futex_wait
    | Asleep
    | Late                     // after EAGAIN: lockFile
    | LateLeave                // unlockFile
    | Relock                   // last arrival: lockFile
    | Zero                     // numIn = 0
    | Bump                     // curRound++
    | WakeAll                  // futex_wake
    | Finish                   // unlockFile

  // rank and seen are the locals numIn and curRound; joined and returned count this process's calls.
  datatype Proc = Proc(pc: Pc, rank: nat, seen: nat, joined: nat, returned: nat)

  // rounds (all increments of curRound) and inside (who joined since the last) are history.
  datatype Shared = Shared(lock: Pid, numIn: nat, curRound: nat, peers: nat, rounds: nat, inside: set<Pid>)

  datatype State = State(b: Shared, ps: map<Pid, Proc>)

  datatype Event = Call(p: Pid) | Go(p: Pid)

  predicate Locking(pc: Pc) {
    pc.Enter? || pc.Late? || pc.Relock?
  }

  predicate Enabled(s: State, e: Event) {
    && e.p in s.ps
    && match e
       case Call(p) => s.ps[p].pc.Out?
       case Go(p) => !s.ps[p].pc.Out? && !s.ps[p].pc.Asleep? && (Locking(s.ps[p].pc) ==> s.b.lock == 0)
  }

  function Back(q: Proc): Proc {
    q.(pc := Out, returned := q.returned + 1)
  }

  function Wrap(n: nat): (m: nat)
    ensures m < WORD && (n < WORD ==> m == n)
  {
    n % WORD
  }

  lemma WrapNext(n: nat)
    ensures Wrap(Wrap(n) + 1) == Wrap(n + 1) != Wrap(n)
  {
  }

  datatype Move = Move(b: Shared, q: Proc)

  function Local(b: Shared, p: Pid, q: Proc): Move {
    match q.pc
    case Enter => Move(b.(lock := p), q.(pc := Join))
    case Join =>
      var n := Wrap(b.numIn + 1);
      Move(b.(numIn := n, inside := b.inside + {p}), q.(pc := Note, rank := n, joined := q.joined + 1))
    case Note => Move(b, q.(pc := Leave, seen := b.curRound))
    case Leave => Move(b.(lock := 0), q.(pc := Test))
    case Test => Move(b, q.(pc := if q.rank < b.peers then Wait else Relock))
    case Wait => Move(b, q.(pc := if b.curRound == q.seen then Asleep else Late))
    case Late => Move(b.(lock := p), q.(pc := LateLeave))
    case LateLeave => Move(b.(lock := 0), Back(q))
    case Relock => Move(b.(lock := p), q.(pc := Zero))
    case Zero => Move(b.(numIn := 0), q.(pc := Bump))
    case Bump => Move(b.(curRound := Wrap(b.curRound + 1), rounds := b.rounds + 1, inside := {}), q.(pc := WakeAll))
    case WakeAll => Move(b, q.(pc := Finish))
    case Finish => Move(b.(lock := 0), Back(q))
    case _ => Move(b, q)
  }

  // futex_wake reaches every sleeper: there are fewer of them than its limit, the number of peers.
  function Woken(ps: map<Pid, Proc>): map<Pid, Proc> {
    map p | p in ps :: if ps[p].pc.Asleep? then Back(ps[p]) else ps[p]
  }

  function Step(s: State, e: Event): State
    requires Enabled(s, e)
  {
    match e
    case Call(p) => s.(ps := s.ps[p := s.ps[p].(pc := Enter)])
    case Go(p) =>
      var move := Local(s.b, p, s.ps[p]);
      State(move.b, (if s.ps[p].pc.WakeAll? then Woken(s.ps) else s.ps)[p := move.q])
  }

  predicate Runs(s: State, es: seq<Event>)
    decreases es
  {
    es == [] || (Enabled(s, es[0]) && Runs(Step(s, es[0]), es[1..]))
  }

  function After(s: State, es: seq<Event>): State
    requires Runs(s, es)
    decreases es
  {
    if es == [] then s else After(Step(s, es[0]), es[1..])
  }

  // The barrier as every participant's initializeBarrier leaves it.
  ghost predicate Init(s: State) {
    && s.b == Shared(0, 0, 0, |s.ps|, 0, {})
    && 0 !in s.ps && 0 < |s.ps| < WORD / 2       // the limit futex_wake takes is an int
    && forall p :: p in s.ps ==> s.ps[p] == Proc(Out, 0, 0, 0, 0)
  }

  // ----- the invariant -----

  // Process p against the shared record; rel is the process releasing the round, 0 if none is, and waking
  // says that it has moved the round on and not yet woken the sleepers.
  predicate ProcOk(b: Shared, rel: Pid, waking: bool, p: Pid, q: Proc) {
    && (p in b.inside ==> q.joined == b.rounds + 1)
    && (p !in b.inside ==> q.joined == b.rounds)
    && q.joined == q.returned + (if q.pc.Out? || q.pc.Enter? || q.pc.Join? then 0 else 1)
    && (b.lock == p <==>
        q.pc.Join? || q.pc.Note? || q.pc.Leave? || q.pc.LateLeave? ||
        q.pc.Zero? || q.pc.Bump? || q.pc.WakeAll? || q.pc.Finish?)
    && (p == rel <==> Releasing(b, q))
    && match q.pc
       case Out => p !in b.inside
       case Enter => p !in b.inside
       case Join => p !in b.inside && rel == 0
       case Note => p in b.inside
       case Leave => p in b.inside && q.seen == b.curRound
       case Test => Seen(b, q)
       case Wait => Seen(b, q)
       case Asleep => p in b.inside || waking
       case Late => p !in b.inside
       case LateLeave => p !in b.inside && rel == 0
       case WakeAll => b.inside == {}
       case Finish => b.inside == {}
       case _ => p in b.inside
  }

  predicate Seen(b: Shared, q: Proc) {
    && q.joined > 0 && (q.joined == b.rounds + 1 ==> q.seen == b.curRound)
    && (q.joined == b.rounds ==> b.curRound == Wrap(q.seen + 1))
    && q.seen < WORD
  }

  predicate Releasing(b: Shared, q: Proc) {
    match q.pc
    case Note => q.rank >= b.peers
    case Leave => q.rank >= b.peers
    case Test => q.rank >= b.peers
    case Relock => true
    case Zero => true
    case Bump => true
    case WakeAll => true
    case Finish => true
    case _ => false
  }

  ghost predicate SharedOk(s: State, rel: Pid) {
    && 0 !in s.ps && s.b.peers == |s.ps.Keys| < WORD && s.b.curRound == Wrap(s.b.rounds)
    && (s.b.lock == 0 || s.b.lock in s.ps)
    && s.b.inside <= s.ps.Keys
    && (if rel == 0 then s.b.numIn == |s.b.inside| < s.b.peers
        else
          && rel in s.ps
          && (s.ps[rel].pc.WakeAll? || s.ps[rel].pc.Finish? || s.b.inside == s.ps.Keys)
          && s.b.numIn == (if s.ps[rel].pc.Bump? || s.ps[rel].pc.WakeAll? || s.ps[rel].pc.Finish? then 0
              else s.b.peers))
  }

  ghost predicate Inv(s: State, rel: Pid) {
    SharedOk(s, rel) && forall p :: p in s.ps ==> ProcOk(s.b, rel, Waking(s, rel), p, s.ps[p])
  }

  predicate Waking(s: State, rel: Pid) {
    rel in s.ps && s.ps[rel].pc.WakeAll?
  }

  // Who is releasing the round after a step.
  function Releaser(s: State, e: Event, rel: Pid): Pid
    requires Enabled(s, e)
  {
    if e.Call? then rel
    else if s.ps[e.p].pc.Join? && s.b.numIn + 1 == s.b.peers then e.p
    else if s.ps[e.p].pc.Finish? then 0
    else rel
  }

  // What a step may do to the shared record, seen by a process that does not take it.
  lemma OtherOk(b: Shared, b': Shared, rel: Pid, rel': Pid, waking: bool, waking': bool, p: Pid, o: Pid, q: Proc)
    requires ProcOk(b, rel, waking, o, q) && o != p && o != 0
    requires b'.peers == b.peers && b.inside <= b'.inside <= b.inside + {p}
    requires b'.rounds == b.rounds && b'.curRound == b.curRound
    requires (b.lock == o <==> b'.lock == o)
    requires rel' == rel || (rel' == p && !Releasing(b, q) && rel == 0) || (rel == p && rel' == 0)
    requires waking' == waking || (!waking' && !q.pc.Asleep?)
    requires (q.pc.Join? || q.pc.LateLeave?) && rel == 0 ==> rel' == 0
    requires (q.pc.WakeAll? || q.pc.Finish?) ==> b'.inside == b.inside
    ensures ProcOk(b', rel', waking', o, q)
  {
  }

  lemma OtherBump(b: Shared, rel: Pid, o: Pid, q: Proc)
    requires ProcOk(b, rel, false, o, q) && o != rel && o in b.inside && b.lock == rel && rel != 0 && q.joined > 0
    requires b.curRound == Wrap(b.rounds)
    ensures ProcOk(Local(b, rel, Proc(Bump, 0, 0, 0, 0)).b, rel, true, o, q)
  {
  }

  lemma CallOk(s: State, p: Pid, rel: Pid)
    requires Enabled(s, Call(p)) && Inv(s, rel)
    ensures Inv(Step(s, Call(p)), rel)
  {
  }

  // Steps that leave the round, the arrivals and the sleepers alone.
  predicate Quiet(pc: Pc) {
    !pc.Out? && !pc.Asleep? && !pc.Join? && !pc.Bump? && !pc.WakeAll?
  }

  lemma QuietSelf(b: Shared, rel: Pid, waking: bool, p: Pid, q: Proc)
    requires ProcOk(b, rel, waking, p, q) && Quiet(q.pc) && p != 0 && b.curRound < WORD
    requires Locking(q.pc) ==> b.lock == 0
    requires waking ==> b.lock == rel
    requires rel != 0 ==> b.inside == {} || p in b.inside
    requires rel != 0 && b.inside == {} ==> b.lock == rel
    ensures var move := Local(b, p, q);
            ProcOk(move.b, if q.pc.Finish? then 0 else rel, waking, p, move.q)
  {
  }

  lemma QuietShared(s: State, p: Pid, rel: Pid)
    requires Enabled(s, Go(p)) && Inv(s, rel) && Quiet(s.ps[p].pc)
    ensures SharedOk(Step(s, Go(p)), Releaser(s, Go(p), rel))
    ensures Waking(Step(s, Go(p)), Releaser(s, Go(p), rel)) == Waking(s, rel)
  {
    assert ProcOk(s.b, rel, Waking(s, rel), p, s.ps[p]);
  }

  lemma QuietOk(s: State, p: Pid, rel: Pid)
    requires Enabled(s, Go(p)) && Inv(s, rel) && Quiet(s.ps[p].pc)
    ensures Inv(Step(s, Go(p)), Releaser(s, Go(p), rel))
  {
    var s', rel' := Step(s, Go(p)), Releaser(s, Go(p), rel);
    assert ProcOk(s.b, rel, Waking(s, rel), p, s.ps[p]);
    QuietShared(s, p, rel);
    assert rel != 0 ==> ProcOk(s.b, rel, Waking(s, rel), rel, s.ps[rel]);
    QuietSelf(s.b, rel, Waking(s, rel), p, s.ps[p]);
    forall o | o in s.ps && o != p ensures ProcOk(s'.b, rel', Waking(s', rel'), o, s.ps[o]) {
      OtherOk(s.b, s'.b, rel, rel', Waking(s, rel), Waking(s', rel'), p, o, s.ps[o]);
    }
  }

  lemma JoinOk(s: State, p: Pid, rel: Pid)
    requires Enabled(s, Go(p)) && Inv(s, rel) && s.ps[p].pc.Join?
    ensures Inv(Step(s, Go(p)), Releaser(s, Go(p), rel))
  {
    var s', rel' := Step(s, Go(p)), Releaser(s, Go(p), rel);
    assert ProcOk(s.b, rel, Waking(s, rel), p, s.ps[p]);
    assert s'.ps.Keys == s.ps.Keys;
    Filled(s'.b.inside, s.ps.Keys);
    forall o | o in s'.ps ensures ProcOk(s'.b, rel', Waking(s', rel'), o, s'.ps[o]) {
      if o != p {
        OtherOk(s.b, s'.b, rel, rel', Waking(s, rel), Waking(s', rel'), p, o, s.ps[o]);
      }
    }
  }

  lemma Filled(a: set<Pid>, b: set<Pid>)
    requires a <= b
    ensures |a| <= |b| && (|a| == |b| ==> a == b)
  {
    assert b == a + (b - a) && |b| == |a| + |b - a|;
  }

  lemma BumpOk(s: State, p: Pid, rel: Pid)
    requires Enabled(s, Go(p)) && Inv(s, rel) && s.ps[p].pc.Bump?
    ensures Inv(Step(s, Go(p)), Releaser(s, Go(p), rel))
  {
    var s' := Step(s, Go(p));
    assert ProcOk(s.b, rel, Waking(s, rel), p, s.ps[p]);
    WrapNext(s.b.rounds);
    forall o | o in s'.ps ensures ProcOk(s'.b, rel, Waking(s', rel), o, s'.ps[o]) {
      if o != p {
        OtherBump(s.b, rel, o, s.ps[o]);
      }
    }
  }

  lemma WakeOk(s: State, p: Pid, rel: Pid)
    requires Enabled(s, Go(p)) && Inv(s, rel) && s.ps[p].pc.WakeAll?
    ensures Inv(Step(s, Go(p)), Releaser(s, Go(p), rel))
  {
    var s' := Step(s, Go(p));
    assert ProcOk(s.b, rel, Waking(s, rel), p, s.ps[p]);
    assert s'.ps.Keys == s.ps.Keys;
    forall o | o in s'.ps ensures ProcOk(s'.b, rel, Waking(s', rel), o, s'.ps[o]) {
      if o != p {
        assert ProcOk(s.b, rel, true, o, s.ps[o]);
      }
    }
  }

  lemma StepInv(s: State, e: Event, rel: Pid)
    requires Enabled(s, e) && Inv(s, rel)
    ensures Inv(Step(s, e), Releaser(s, e, rel))
  {
    if e.Call? {
      CallOk(s, e.p, rel);
    } else if s.ps[e.p].pc.Join? {
      JoinOk(s, e.p, rel);
    } else if s.ps[e.p].pc.Bump? {
      BumpOk(s, e.p, rel);
    } else if s.ps[e.p].pc.WakeAll? {
      WakeOk(s, e.p, rel);
    } else {
      QuietOk(s, e.p, rel);
    }
  }

  lemma {:induction false} RunInv(s: State, es: seq<Event>, rel: Pid) returns (rel': Pid)
    requires Inv(s, rel) && Runs(s, es)
    ensures Inv(After(s, es), rel')
    decreases es
  {
    if es == [] {
      rel' := rel;
    } else {
      StepInv(s, es[0], rel);
      rel' := RunInv(Step(s, es[0]), es[1..], Releaser(s, es[0], rel));
    }
  }

  lemma Reached(init: State, es: seq<Event>) returns (rel: Pid)
    requires Init(init) && Runs(init, es)
    ensures Inv(After(init, es), rel)
  {
    rel := RunInv(init, es, 0);
  }

  // ----- what every run guarantees -----

  // Nobody returns from its k-th call before everybody has joined its own k-th.
  lemma NobodyReturnsEarly(init: State, es: seq<Event>, p: Pid, q: Pid)
    requires Init(init) && Runs(init, es) && p in After(init, es).ps && q in After(init, es).ps
    ensures After(init, es).ps[p].returned <= After(init, es).ps[q].joined <= After(init, es).ps[p].returned + 2
  {
    var rel := Reached(init, es);
    var s := After(init, es);
    assert ProcOk(s.b, rel, Waking(s, rel), p, s.ps[p]);
    assert ProcOk(s.b, rel, Waking(s, rel), q, s.ps[q]);
  }

  // The wake of a round reaches exactly the sleepers of that round: all of them, and no one else is asleep.
  lemma WakesItsOwnRound(init: State, es: seq<Event>, p: Pid, q: Pid)
    requires Init(init) && Runs(init, es) && q in After(init, es).ps && After(init, es).ps[q].pc.Asleep?
    requires p in After(init, es).ps && After(init, es).ps[p].pc.WakeAll?
    ensures After(init, es).ps[q].joined == After(init, es).ps[p].joined
    ensures Step(After(init, es), Go(p)).ps[q].returned == After(init, es).ps[q].joined
  {
    var rel := Reached(init, es);
    var s := After(init, es);
    assert ProcOk(s.b, rel, Waking(s, rel), p, s.ps[p]);
    assert ProcOk(s.b, rel, Waking(s, rel), q, s.ps[q]);
  }

  // Outside that wake, a sleeper's round is still filling: some participant has yet to join it, or all
  // have and one of them is on its way to release it.  So no wake is ever missed.
  lemma SleepersAreServed(init: State, es: seq<Event>, q: Pid)
    requires Init(init) && Runs(init, es) && q in After(init, es).ps && After(init, es).ps[q].pc.Asleep?
    ensures var s := After(init, es);
            || (exists p :: p in s.ps && s.ps[p].joined < s.ps[q].joined)
            || (exists p :: p in s.ps && s.ps[p].joined == s.ps[q].joined && Releasing(s.b, s.ps[p]))
  {
    var rel := Reached(init, es);
    var s := After(init, es);
    assert ProcOk(s.b, rel, Waking(s, rel), q, s.ps[q]);
    if rel == 0 {
      Filled(s.b.inside, s.ps.Keys);
      assert s.b.inside != s.ps.Keys;
      var p :| p in s.ps && p !in s.b.inside;
      assert ProcOk(s.b, rel, Waking(s, rel), p, s.ps[p]);
    } else {
      assert ProcOk(s.b, rel, Waking(s, rel), rel, s.ps[rel]);
    }
  }

  // The barrier never hangs on its own: when nobody can move, a sleeper waits for somebody outside any call.
  lemma NeverHangs(init: State, es: seq<Event>, q: Pid)
    requires Init(init) && Runs(init, es) && q in After(init, es).ps && After(init, es).ps[q].pc.Asleep?
    requires forall p :: p in After(init, es).ps ==> !Enabled(After(init, es), Go(p))
    ensures var s := After(init, es); exists p :: p in s.ps && s.ps[p].pc.Out? && s.ps[p].joined < s.ps[q].joined
  {
    var rel := Reached(init, es);
    var s := After(init, es);
    SleepersAreServed(init, es, q);
    assert ProcOk(s.b, rel, Waking(s, rel), q, s.ps[q]);
    assert s.b.lock == 0 by { assert s.b.lock != 0 ==> ProcOk(s.b, rel, Waking(s, rel), s.b.lock, s.ps[s.b.lock]); }
    assert forall p :: p in s.ps && Releasing(s.b, s.ps[p]) ==> Enabled(s, Go(p));
    var p :| p in s.ps && s.ps[p].joined < s.ps[q].joined;
    assert !Enabled(s, Go(p)) && ProcOk(s.b, rel, Waking(s, rel), p, s.ps[p]);
  }

  // ----- calls come to an end -----

  // At most how many steps of its own a process still has to make.
  function StepsLeft(pc: Pc): nat {
    match pc
    case Out => 0
    case Enter => 10
    case Join => 9
    case Note => 8
    case Leave => 7
    case Test => 6
    case Wait => 3
    case Asleep => 0
    case Late => 2
    case LateLeave => 1
    case Relock => 5
    case Zero => 4
    case Bump => 3
    case WakeAll => 2
    case Finish => 1
  }

  function Times(es: seq<Event>, e: Event): nat {
    if es == [] then 0 else (if es[0] == e then 1 else 0) + Times(es[1..], e)
  }

  // A call takes at most ten steps of its caller's own, whatever the others do.
  lemma {:induction false} CallsAreShort(s: State, es: seq<Event>, p: Pid)
    requires Runs(s, es) && p in s.ps
    ensures p in After(s, es).ps
    ensures Times(es, Go(p)) + StepsLeft(After(s, es).ps[p].pc) <= StepsLeft(s.ps[p].pc) + 10 * Times(es, Call(p))
    decreases es
  {
    if es != [] {
      CallsAreShort(Step(s, es[0]), es[1..], p);
    }
  }

  // Calls made: those that returned and the one in progress.
  function Made(q: Proc): nat {
    q.returned + if q.pc.Out? then 0 else 1
  }

  lemma {:induction false} CallsAreCounted(s: State, es: seq<Event>, p: Pid)
    requires Runs(s, es) && p in s.ps
    ensures p in After(s, es).ps && Made(After(s, es).ps[p]) == Made(s.ps[p]) + Times(es, Call(p))
    decreases es
  {
    if es != [] {
      CallsAreCounted(Step(s, es[0]), es[1..], p);
    }
  }

  // When everybody has called k times and nobody can move, everybody has returned k times.
  lemma EverybodyReturns(init: State, es: seq<Event>, k: nat, q: Pid)
    requires Init(init) && Runs(init, es) && q in After(init, es).ps
    requires forall p :: p in init.ps ==> Times(es, Call(p)) == k
    requires forall p :: p in After(init, es).ps ==> !Enabled(After(init, es), Go(p))
    ensures After(init, es).ps[q].pc.Out? && After(init, es).ps[q].returned == k
  {
    var s := After(init, es);
    SameProcesses(init, es);
    var rel := Reached(init, es);
    CallsAreCounted(init, es, q);
    SettledCalls(init, es, q);
    assert s.b.lock == 0 by { assert s.b.lock != 0 ==> ProcOk(s.b, rel, Waking(s, rel), s.b.lock, s.ps[s.b.lock]); }
    assert !Enabled(s, Go(q));
    if s.ps[q].pc.Asleep? {
      NeverHangs(init, es, q);
      var p :| p in s.ps && s.ps[p].pc.Out? && s.ps[p].joined < s.ps[q].joined;
      SettledCalls(init, es, p);
    }
  }

  // Out of any call, or asleep in one, a process has joined as often as it has called.
  lemma SettledCalls(init: State, es: seq<Event>, p: Pid)
    requires Init(init) && Runs(init, es) && p in init.ps
    ensures var s := After(init, es);
            p in s.ps && (s.ps[p].pc.Out? || s.ps[p].pc.Asleep? ==> s.ps[p].joined == Times(es, Call(p)))
  {
    var rel := Reached(init, es);
    CallsAreCounted(init, es, p);
    var s := After(init, es);
    assert ProcOk(s.b, rel, Waking(s, rel), p, s.ps[p]);
  }

  lemma {:induction false} SameProcesses(s: State, es: seq<Event>)
    requires Runs(s, es)
    ensures After(s, es).ps.Keys == s.ps.Keys
    decreases es
  {
    if es != [] {
      SameProcesses(Step(s, es[0]), es[1..]);
    }
  }

  // futex_wake's limit, the number of peers, is never too small.
  lemma WakeLimitSuffices(init: State, es: seq<Event>, p: Pid, sleepers: set<Pid>)
    requires Init(init) && Runs(init, es) && p in After(init, es).ps && After(init, es).ps[p].pc.WakeAll?
    requires forall q :: q in sleepers ==> q in After(init, es).ps && After(init, es).ps[q].pc.Asleep?
    ensures |sleepers| < After(init, es).b.peers
  {
    var rel := Reached(init, es);
    Filled(sleepers + {p}, After(init, es).ps.Keys);
  }

  // ----- the shared record in place -----

  class BarrierInfo {
    var numCkptPeers: nat
    var numIn: nat
    var curRound: nat

    // The record as a step sees it while p holds the file lock; rounds and inside are the caller's history.
    function View(p: Pid, rounds: nat, inside: set<Pid>): Shared
      reads this
    {
      Shared(p, numIn, curRound, numCkptPeers, rounds, inside)
    }

    constructor ()
      ensures numCkptPeers == 0 && numIn == 0 && curRound == 0
    {
      numCkptPeers, numIn, curRound := 0, 0, 0;
    }

    method InitializeBarrier()
      modifies this
      ensures numCkptPeers == old(numCkptPeers) + 1 && numIn == 0 && curRound == 0
    {
      numCkptPeers := numCkptPeers + 1;
      numIn := 0;
      curRound := 0;
    }

    // After a reset, one call by each participant leaves the record of Init.
    method InitializeAll(n: nat)
      requires numCkptPeers == 0 && numIn == 0 && curRound == 0
      modifies this
      ensures View(0, 0, {}) == Shared(0, 0, 0, n, 0, {})
    {
      var i := 0;
      while i < n
        invariant i <= n && numCkptPeers == i && numIn == 0 && curRound == 0
      {
        InitializeBarrier();
        i := i + 1;
      }
    }

    // What an arriving process does under the lock: its Join and Note steps.
    method Arrive(p: Pid, ghost rounds: nat, ghost inside: set<Pid>, ghost q: Proc) returns (rank: nat, seen: nat)
      requires q.pc.Join?
      modifies this
      ensures var joined := Local(old(View(p, rounds, inside)), p, q);
              var noted := Local(joined.b, p, joined.q);
              noted.b == View(p, rounds, inside + {p}) && noted.q.rank == rank && noted.q.seen == seen
    {
      numIn := Wrap(numIn + 1);
      rank := numIn;
      seen := curRound;
    }

    // What the last arrival does under the lock before its wake: its Zero and Bump steps.
    method Release(p: Pid, ghost rounds: nat, ghost inside: set<Pid>, ghost q: Proc)
      requires q.pc.Zero?
      modifies this
      ensures var zeroed := Local(old(View(p, rounds, inside)), p, q);
              Local(zeroed.b, p, zeroed.q).b == View(p, rounds + 1, {})
    {
      numIn := 0;
      curRound := Wrap(curRound + 1);
    }
  }
}

/**
 DmtcpMutex: the three-state futex mutex, at the granularity of single loads, stores and
 swaps, for any number of threads.

 A thread asleep in futex_wait may be woken by futex_wake or by a signal.  Lock and unlock
 calls come in any order; a caller of unlock who does not hold the lock is stopped by the
 owner check, except for the LLL kind, which keeps no thread identity and relies on its callers.
 */
module Mutex {

  type Tid = nat

  const FREE := 0
  const ACQUIRED := 1
  const CONTENDED := 2
  const COUNT_LIMIT := 0x1_0000_0000     // count is 32 bits wide

  datatype Kind = Normal | Recursive | Lll

  datatype Pc =
    | Idle
    | ReadOwner(blocking: bool)      // trylock: compare owner with the caller
    | CheckCount                     // assertion that count does not overflow
    | LoadCount
    | StoreCount(c: nat)
    | TrySwap(blocking: bool)        // swap 0 to 1
    | SetOwner
    | SetCount
    | MarkContended                  // slow path: swap 1 to 2
    | Wait                           // about to enter futex_wait
    | Asleep
    | Grab                           // swap 0 to 2
    | CheckOwner                     // unlock: assertion on the owner
    | DecLoad
    | DecStore(c: nat)
    | TestCount
    | ClearOwner
    | Release1                       // swap 1 to 0
    | Release2                       // swap 2 to 0
    | WakeOne
    | Aborted(why: Abort)

  datatype Abort = CountOverflow | NotOwner | BadFutex

  // acq counts the lock calls that returned 0, rel the unlock calls that passed the owner check.
  datatype Thread = Thread(pc: Pc, acq: nat, rel: nat)

  datatype Futex = Futex(kind: Kind, word: nat, owner: nat, count: nat)

  datatype State = State(m: Futex, ts: map<Tid, Thread>)

  datatype Event =
    | Lock(t: Tid)
    | TryLock(t: Tid)
    | Unlock(t: Tid)
    | Go(t: Tid)
    | Wake(t: Tid, sleeper: Tid)     // futex_wake by t reaches this sleeper
    | Interrupt(t: Tid)              // a signal ends futex_wait

  predicate Holding(th: Thread) { th.acq > th.rel }

  predicate At(s: State, t: Tid, pc: Pc) { t in s.ts && s.ts[t].pc == pc }

  predicate Enabled(s: State, e: Event) {
    match e
    case Lock(t) => At(s, t, Idle)
    case TryLock(t) => At(s, t, Idle)
    case Unlock(t) => At(s, t, Idle) && (s.m.kind == Lll ==> Holding(s.ts[t]))
    case Go(t) =>
      && t in s.ts && !s.ts[t].pc.Idle? && !s.ts[t].pc.Asleep? && !s.ts[t].pc.Aborted?
      && (s.ts[t].pc.WakeOne? ==> forall u :: u in s.ts ==> !s.ts[u].pc.Asleep?)
    case Wake(t, u) => At(s, t, WakeOne) && At(s, u, Asleep)
    case Interrupt(t) => At(s, t, Asleep)
  }

  function Set(s: State, t: Tid, pc: Pc): State
    requires t in s.ts
  {
    s.(ts := s.ts[t := s.ts[t].(pc := pc)])
  }

  function Start(s: State, t: Tid, blocking: bool): State
    requires t in s.ts
  {
    Set(s, t, if s.m.kind == Lll then TrySwap(blocking) else ReadOwner(blocking))
  }

  // What the code stores in, and expects of, the owner field.
  function Mark(kind: Kind, t: Tid): nat {
    if kind == Lll then 1 else t
  }

  // 32-bit increment and decrement.
  function Inc(c: nat): nat {
    if c + 1 == COUNT_LIMIT then 0 else c + 1
  }

  function Dec(c: nat): nat {
    if c == 0 then COUNT_LIMIT - 1 else c - 1
  }

  datatype Move = Move(m: Futex, th: Thread)

  // One step of a thread, which sees only the mutex and itself.
  function Local(m: Futex, t: Tid, th: Thread): Move {
    match th.pc
    case ReadOwner(blocking) =>
      if m.owner != t then Move(m, th.(pc := TrySwap(blocking)))
      else if m.kind == Recursive then Move(m, th.(pc := CheckCount))
      else Move(m, th.(pc := if blocking then MarkContended else Idle))          // EDEADLK
    case CheckCount => Move(m, th.(pc := if Inc(m.count) == 0 then Aborted(CountOverflow) else LoadCount))
    case LoadCount => Move(m, th.(pc := StoreCount(m.count)))
    case StoreCount(c) => Move(m.(count := Inc(c)), Thread(Idle, th.acq + 1, th.rel))
    case TrySwap(blocking) =>
      if m.word == FREE then Move(m.(word := ACQUIRED), th.(pc := SetOwner))
      else Move(m, th.(pc := if blocking then MarkContended else Idle))          // EAGAIN
    case SetOwner => Move(m.(owner := Mark(m.kind, t)), th.(pc := SetCount))
    case SetCount => Move(m.(count := 1), Thread(Idle, th.acq + 1, th.rel))
    case MarkContended =>
      Move(if m.word == ACQUIRED then m.(word := CONTENDED) else m, th.(pc := if m.word != FREE then Wait else Grab))
    case Wait => Move(m, th.(pc := if m.word == CONTENDED then Asleep else Grab))
    case Grab =>
      if m.word == FREE then Move(m.(word := CONTENDED), th.(pc := SetOwner)) else Move(m, th.(pc := MarkContended))
    case CheckOwner =>
      if m.owner != Mark(m.kind, t) then Move(m, th.(pc := Aborted(NotOwner)))
      else Move(m, Thread(DecLoad, th.acq, th.rel + 1))
    case DecLoad => Move(m, th.(pc := DecStore(m.count)))
    case DecStore(c) => Move(m.(count := Dec(c)), th.(pc := TestCount))
    case TestCount => Move(m, th.(pc := if m.count == 0 then ClearOwner else Idle))
    case ClearOwner => Move(m.(owner := 0), th.(pc := Release1))
    case Release1 =>
      if m.word == ACQUIRED then Move(m.(word := FREE), th.(pc := Idle)) else Move(m, th.(pc := Release2))
    case Release2 =>
      if m.word == CONTENDED then Move(m.(word := FREE), th.(pc := WakeOne)) else Move(m, th.(pc := Aborted(BadFutex)))
    case WakeOne => Move(m, th.(pc := Idle))
    case _ => Move(m, th)
  }

  function GoStep(s: State, t: Tid): State
    requires t in s.ts
  {
    var move := Local(s.m, t, s.ts[t]);
    State(move.m, s.ts[t := move.th])
  }

  function Step(s: State, e: Event): State
    requires Enabled(s, e)
  {
    match e
    case Lock(t) => Start(s, t, true)
    case TryLock(t) => Start(s, t, false)
    case Unlock(t) => Set(s, t, CheckOwner)
    case Go(t) => GoStep(s, t)
    case Wake(t, u) => Set(Set(s, t, Idle), u, Grab)
    case Interrupt(t) => Set(s, t, Grab)
  }

  predicate Runs(s: State, es: seq<Event>)
    decreases es
  {
    es == [] || (Enabled(s, es[0]) && Runs(Step(s, es[0]), es[1..]))
  }

  function After(s: State, es: seq<Event>): State
    requires Runs(s, es)
    decreases es
  {
    if es == [] then s else After(Step(s, es[0]), es[1..])
  }

  ghost predicate Init(s: State) {
    && s.m == Futex(s.m.kind, FREE, 0, 0)
    && 0 !in s.ts && forall t :: t in s.ts ==> s.ts[t] == Thread(Idle, 0, 0)
  }

  // ----- the invariant -----

  // Program points that only the thread owning the futex word reaches.
  predicate Inside(pc: Pc) {
    pc.CheckCount? || pc.LoadCount? || pc.StoreCount? || pc.SetOwner? || pc.SetCount? || pc.DecLoad? || pc.DecStore?
    || pc.TestCount? || pc.ClearOwner? || pc.Release1? || pc.Release2? || pc == Aborted(CountOverflow)
  }

  predicate SlowPath(pc: Pc) {
    pc.MarkContended? || pc.Wait? || pc.Asleep? || pc.Grab?
  }

  // A thread that does not own the futex word.
  predicate Outside(kind: Kind, th: Thread) {
    !Inside(th.pc) && th.acq == th.rel && th.pc != Aborted(BadFutex)
        && (kind == Lll ==> !th.pc.CheckOwner? && !th.pc.Aborted?)
  }

  predicate Counts(m: Futex, th: Thread) {
    match th.pc
    case SetOwner => m.count == 0 && th.acq == th.rel
    case SetCount => m.count == 0 && th.acq == th.rel
    case DecLoad => m.count == th.acq - th.rel + 1
    case DecStore(c) => c == m.count == th.acq - th.rel + 1
    case TestCount => m.count == th.acq - th.rel
    case ClearOwner => m.count == 0 == th.acq - th.rel
    case Release1 => m.count == 0 == th.acq - th.rel
    case Release2 => m.count == 0 == th.acq - th.rel && m.word == CONTENDED
    case StoreCount(c) => 0 < c == m.count == th.acq - th.rel < COUNT_LIMIT - 1
    case LoadCount => 0 < m.count == th.acq - th.rel < COUNT_LIMIT - 1
    case Aborted(why) => why == CountOverflow && m.count == th.acq - th.rel == COUNT_LIMIT - 1
    case _ => 0 < m.count == th.acq - th.rel
  }

  // The thread that owns the futex word.
  predicate Owns(m: Futex, t: Tid, th: Thread) {
    && Counts(m, th) && m.count < COUNT_LIMIT && th.rel <= th.acq
    && m.owner == (if th.pc.SetOwner? || th.pc.Release1? || th.pc.Release2? then 0 else Mark(m.kind, t))
    && !th.pc.WakeOne?
    && (m.kind == Recursive ==> !SlowPath(th.pc) && !th.pc.TrySwap?)
    && (m.kind == Normal ==> !th.pc.TrySwap?)
    && (m.kind != Recursive ==> !th.pc.CheckCount? && !th.pc.LoadCount? && !th.pc.StoreCount? && !th.pc.Aborted?)
  }

  ghost predicate Shared(s: State, holder: Tid) {
    && s.m.word <= CONTENDED && 0 !in s.ts
    && (s.m.word == FREE <==> holder == 0)
    && (if holder == 0 then s.m.owner == 0 && s.m.count == 0
        else holder in s.ts && Owns(s.m, holder, s.ts[holder]))
  }

  ghost predicate Others(s: State, holder: Tid) {
    forall t :: t in s.ts && t != holder ==> Outside(s.m.kind, s.ts[t])
  }

  // A sleeper is never forgotten.
  ghost predicate Watched(s: State) {
    (exists t :: At(s, t, Asleep)) ==> s.m.word == CONTENDED || exists u :: u in s.ts && Responsible(s.ts[u].pc)
  }

  predicate Responsible(pc: Pc) {
    pc.WakeOne? || pc.MarkContended? || pc.Wait? || pc.Grab?
  }

  ghost predicate Inv(s: State, holder: Tid) {
    Shared(s, holder) && Others(s, holder) && Watched(s)
  }

  // Who owns the futex word after a step.
  function Holder(s: State, e: Event, holder: Tid): Tid
    requires Enabled(s, e)
  {
    if s.m.word == FREE && Step(s, e).m.word != FREE then e.t
    else if s.m.word != FREE && Step(s, e).m.word == FREE then 0
    else holder
  }

  predicate OutsiderWrites(m: Futex, m': Futex) {
    m' == m || (m.word == ACQUIRED && m' == m.(word := CONTENDED))
  }

  // A step of a thread that does not own the word: it acquires it when free, else at most marks it contended.
  lemma OutsiderGo(m: Futex, t: Tid, th: Thread)
    requires m.word <= CONTENDED && Outside(m.kind, th) && t != 0
    requires m.word == FREE ==> m.owner == 0 && m.count == 0
    requires m.kind != Lll ==> m.owner != t
    ensures var move := Local(m, t, th);
            if m.word == FREE && move.m.word != FREE then Owns(move.m, t, move.th) && move.m.word <= CONTENDED
            else Outside(m.kind, move.th) && OutsiderWrites(m, move.m)
  {
  }

  lemma OwnerUnmoved(m: Futex, m': Futex, t: Tid, th: Thread)
    requires Owns(m, t, th) && OutsiderWrites(m, m')
    ensures Owns(m', t, th)
  {
  }

  predicate Unlocking(pc: Pc) {
    pc.CheckOwner? || pc.DecLoad? || pc.DecStore? || pc.TestCount? || pc.ClearOwner? || pc.Release1? || pc.Release2?
  }

  lemma OwnerUnlocks(m: Futex, t: Tid, th: Thread)
    requires Owns(m, t, th) && m.word != FREE && m.word <= CONTENDED && Unlocking(th.pc)
    ensures var move := Local(m, t, th);
            if move.m.word == FREE then move.m.owner == 0 && move.m.count == 0 && Outside(m.kind, move.th)
            else Owns(move.m, t, move.th) && move.m.word <= CONTENDED
  {
  }

  lemma OwnerGo(m: Futex, t: Tid, th: Thread)
    requires Owns(m, t, th) && m.word != FREE && m.word <= CONTENDED && t != 0
    ensures var move := Local(m, t, th);
            if move.m.word == FREE then move.m.owner == 0 && move.m.count == 0 && Outside(m.kind, move.th)
            else Owns(move.m, t, move.th) && move.m.word <= CONTENDED
  {
    if Unlocking(th.pc) {
      OwnerUnlocks(m, t, th);
    }
  }

  lemma GoShared(s: State, t: Tid, holder: Tid)
    requires Enabled(s, Go(t)) && Shared(s, holder) && Others(s, holder)
    ensures Shared(Step(s, Go(t)), Holder(s, Go(t), holder)) && Others(Step(s, Go(t)), Holder(s, Go(t), holder))
  {
    if t == holder {
      OwnerGo(s.m, t, s.ts[t]);
    } else {
      OutsiderGo(s.m, t, s.ts[t]);
      if holder != 0 && GoStep(s, t).m.word != FREE {
        OwnerUnmoved(s.m, GoStep(s, t).m, holder, s.ts[holder]);
      }
    }
  }

  // A call begins, or a sleeper is woken: one thread moves and the mutex stays as it is.
  lemma MoveShared(s: State, t: Tid, pc: Pc, holder: Tid)
    requires Shared(s, holder) && Others(s, holder) && t in s.ts
    requires t == holder ==> Owns(s.m, t, s.ts[t].(pc := pc))
    requires t != holder ==> Outside(s.m.kind, s.ts[t].(pc := pc))
    ensures Shared(Set(s, t, pc), holder) && Others(Set(s, t, pc), holder)
  {
  }

  // A thread that starts a call, or wakes up, stays an owner or an outsider.
  lemma MoveLocal(m: Futex, t: Tid, th: Thread, pc: Pc)
    requires pc in {TrySwap(true), TrySwap(false), ReadOwner(true), ReadOwner(false), CheckOwner, Grab}
    requires if pc.Grab? then th.pc.Asleep? else th.pc.Idle?
    requires pc.TrySwap? ==> m.kind == Lll
    requires pc.CheckOwner? && m.kind == Lll ==> Holding(th)
    ensures Owns(m, t, th) ==> Owns(m, t, th.(pc := pc))
    ensures Outside(m.kind, th) ==> Outside(m.kind, th.(pc := pc))
  {
  }

  lemma WakeShared(s: State, t: Tid, u: Tid, holder: Tid)
    requires Enabled(s, Wake(t, u)) && Shared(s, holder) && Others(s, holder)
    ensures Shared(Step(s, Wake(t, u)), holder) && Others(Step(s, Wake(t, u)), holder)
  {
    MoveShared(s, t, Idle, holder);
    MoveLocal(s.m, u, s.ts[u], Grab);
    MoveShared(Set(s, t, Idle), u, Grab, holder);
  }

  lemma CallShared(s: State, e: Event, holder: Tid)
    requires Enabled(s, e) && !e.Go? && Shared(s, holder) && Others(s, holder)
    ensures Shared(Step(s, e), holder) && Others(Step(s, e), holder) && Holder(s, e, holder) == holder
  {
    if e.Wake? {
      WakeShared(s, e.t, e.sleeper, holder);
    } else {
      var pc := Step(s, e).ts[e.t].pc;
      MoveLocal(s.m, e.t, s.ts[e.t], pc);
      MoveShared(s, e.t, pc, holder);
    }
  }

  lemma StepWatched(s: State, e: Event, holder: Tid)
    requires Enabled(s, e) && Inv(s, holder)
    ensures Watched(Step(s, e))
  {
    var s' := Step(s, e);
    if t :| At(s', t, Asleep) {
      if s.m.word == CONTENDED {
        if s'.m.word != CONTENDED { assert Responsible(s'.ts[e.t].pc); }
      } else if At(s, t, Asleep) {
        var u :| u in s.ts && Responsible(s.ts[u].pc);
        if e.Wake? {
          assert Responsible(s'.ts[e.sleeper].pc);
        } else {
          assert s'.m.word == CONTENDED || Responsible(s'.ts[u].pc);
        }
      }
    }
  }

  lemma StepInv(s: State, e: Event, holder: Tid)
    requires Enabled(s, e) && Inv(s, holder)
    ensures Inv(Step(s, e), Holder(s, e, holder))
  {
    if e.Go? { GoShared(s, e.t, holder); } else { CallShared(s, e, holder); }
    StepWatched(s, e, holder);
  }

  lemma {:induction false} RunInv(s: State, es: seq<Event>, holder: Tid) returns (holder': Tid)
    requires Inv(s, holder) && Runs(s, es)
    ensures Inv(After(s, es), holder')
    decreases es
  {
    if es == [] {
      holder' := holder;
    } else {
      StepInv(s, es[0], holder);
      holder' := RunInv(Step(s, es[0]), es[1..], Holder(s, es[0], holder));
    }
  }

  lemma Reached(init: State, es: seq<Event>) returns (holder: Tid)
    requires Init(init) && Runs(init, es)
    ensures Inv(After(init, es), holder)
  {
    holder := RunInv(init, es, 0);
  }

  // ----- what every run guarantees -----

  // A thread has the lock from its winning swap to its freeing swap; in between it sits in the critical section.
  predicate Has(th: Thread) {
    Holding(th) || Inside(th.pc)
  }

  // At most one thread has the lock, nobody has a free one, and the owner field never names anyone else.
  lemma MutualExclusion(init: State, es: seq<Event>, t: Tid)
    requires Init(init) && Runs(init, es) && t in After(init, es).ts && Has(After(init, es).ts[t])
    ensures var s := After(init, es);
            && (forall u :: u in s.ts && Has(s.ts[u]) ==> u == t)
            && s.m.word != FREE
            && s.m.owner in {0, Mark(s.m.kind, t)}
            && (s.ts[t].pc.Idle? ==> s.m.owner == Mark(s.m.kind, t))
  {
    var holder := Reached(init, es);
  }

  // With nobody in the lock the owner field is clear and the word is free.
  lemma FreeWhenNobodyHas(init: State, es: seq<Event>)
    requires Init(init) && Runs(init, es)
    ensures var s := After(init, es);
            s.m.word == FREE <==> forall t :: t in s.ts ==> !Has(s.ts[t])
    ensures After(init, es).m.word == FREE ==> After(init, es).m.owner == 0 && After(init, es).m.count == 0
  {
    var holder := Reached(init, es);
    var s := After(init, es);
    if holder != 0 {
      assert Has(s.ts[holder]);
    }
  }

  // Between calls, count is the number of acquisitions not yet undone, and the lock is free exactly
  // when every thread has undone all of its own.
  lemma FreedExactlyWhenMatched(init: State, es: seq<Event>)
    requires Init(init) && Runs(init, es)
    ensures var s := After(init, es);
            && (forall t :: t in s.ts && s.ts[t].pc.Idle? && Holding(s.ts[t]) ==>
                s.m.count == s.ts[t].acq - s.ts[t].rel)
            && (forall t :: t in s.ts ==> s.ts[t].rel <= s.ts[t].acq)
            && ((forall t :: t in s.ts ==> s.ts[t].pc.Idle?) ==>
                  (s.m.word == FREE <==> forall t :: t in s.ts ==> s.ts[t].acq == s.ts[t].rel))
  {
    var holder := Reached(init, es);
    FreeWhenNobodyHas(init, es);
  }

  // The swap that frees the word is made by a thread all of whose acquisitions are undone.
  lemma FreedByItsHolder(init: State, es: seq<Event>, e: Event)
    requires Init(init) && Runs(init, es) && Enabled(After(init, es), e)
    requires After(init, es).m.word != FREE && Step(After(init, es), e).m.word == FREE
    ensures var th := After(init, es).ts[e.t]; e.Go? && Has(th) && th.acq == th.rel && After(init, es).m.count == 0
  {
    var holder := Reached(init, es);
    var s := After(init, es);
    if e.t != holder { OutsiderGo(s.m, e.t, s.ts[e.t]); }
  }

  // unlock's owner check stops exactly the callers who do not hold the lock.
  lemma OwnerCheckIsExact(init: State, es: seq<Event>, t: Tid)
    requires Init(init) && Runs(init, es) && At(After(init, es), t, CheckOwner)
    ensures Step(After(init, es), Go(t)).ts[t].pc
        == (if Holding(After(init, es).ts[t]) then DecLoad else Aborted(NotOwner))
  {
    var holder := Reached(init, es);
  }

  // The assertion on the futex word never fires; the overflow assertion fires only at the 2^32-th nested acquisition.
  lemma AbortsAreDeserved(init: State, es: seq<Event>, t: Tid)
    requires Init(init) && Runs(init, es) && t in After(init, es).ts && After(init, es).ts[t].pc.Aborted?
    ensures var s := After(init, es); var th := s.ts[t];
            || (th.pc.why == NotOwner && s.m.kind != Lll && th.acq == th.rel)
            || (th.pc.why == CountOverflow && s.m.kind == Recursive && th.acq - th.rel == COUNT_LIMIT - 1)
  {
    var holder := Reached(init, es);
  }

  // A sleeping thread is always someone's business.
  lemma NoLostWakeup(init: State, es: seq<Event>, t: Tid)
    requires Init(init) && Runs(init, es) && At(After(init, es), t, Asleep)
    ensures var s := After(init, es);
            s.m.word == CONTENDED || exists u :: u in s.ts && Responsible(s.ts[u].pc)
  {
    var holder := Reached(init, es);
  }

  // With a sleeper and a free lock, one thread alone takes the lock within two steps, and leaves it marked contended.
  lemma SleepersProgress(init: State, es: seq<Event>, t: Tid) returns (next: seq<Event>, u: Tid)
    requires Init(init) && Runs(init, es) && At(After(init, es), t, Asleep) && After(init, es).m.word == FREE
    ensures |next| <= 2 && Runs(After(init, es), next)
    ensures var s := After(After(init, es), next); At(s, u, SetOwner) && s.m.word == CONTENDED
  {
    var s := After(init, es);
    NoLostWakeup(init, es, t);
    u :| u in s.ts && Responsible(s.ts[u].pc);
    var first := if s.ts[u].pc.WakeOne? then Wake(u, t) else Go(u);
    if s.ts[u].pc.Grab? {
      next := [Go(u)];
      OneRun(s, Go(u));
    } else {
      u := if s.ts[u].pc.WakeOne? then t else u;
      next := [first, Go(u)];
      OneRun(Step(s, first), Go(u));
      assert next[1..] == [Go(u)];
    }
  }

  lemma OneRun(s: State, e: Event)
    requires Enabled(s, e)
    ensures Runs(s, [e]) && After(s, [e]) == Step(s, e)
  {
    assert [e][1..] == [];
    assert Runs(Step(s, e), []);
  }

  // When nothing but sleeping and new calls is left, sleepers wait for a thread that still holds the lock.
  lemma SleepersWaitForAHolder(init: State, es: seq<Event>, t: Tid)
    requires Init(init) && Runs(init, es) && At(After(init, es), t, Asleep)
    requires forall u :: u in After(init, es).ts ==>
        !Enabled(After(init, es), Go(u)) && !After(init, es).ts[u].pc.WakeOne?
    ensures var s := After(init, es);
            exists h :: h in s.ts && Holding(s.ts[h]) && (s.m.kind == Recursive ==> h != t)
  {
    var holder := Reached(init, es);
    var s := After(init, es);
    NoLostWakeup(init, es, t);
    if u :| u in s.ts && Responsible(s.ts[u].pc) { assert Enabled(s, Go(u)); }
    assert !Enabled(s, Go(holder));
  }

  // Locking a NORMAL mutex twice is noticed by trylock but not reported by lock: the caller goes to sleep on itself.
  lemma RelockingSleeps(init: State, es: seq<Event>, t: Tid)
    requires Init(init) && Runs(init, es) && init.m.kind == Normal
    requires At(After(init, es), t, Idle) && Holding(After(init, es).ts[t])
    ensures var again := [Lock(t)] + ([Go(t)] + ([Go(t)] + [Go(t)]));
            && Runs(After(init, es), again)
            && At(After(After(init, es), again), t, Asleep) && Holding(After(After(init, es), again).ts[t])
  {
    var holder := Reached(init, es);
    KindKept(init, es);
    RelockRun(After(init, es), t);
  }

  lemma RelockRun(s: State, t: Tid)
    requires At(s, t, Idle) && s.m.kind == Normal && s.m.owner == t && s.m.word in {ACQUIRED, CONTENDED}
    ensures var again := [Lock(t)] + ([Go(t)] + ([Go(t)] + [Go(t)]));
            Runs(s, again) && At(After(s, again), t, Asleep) && After(s, again).ts[t] == s.ts[t].(pc := Asleep)
  {
    var s1 := Step(s, Lock(t));
    var s2 := Step(s1, Go(t));
    var s3 := Step(s2, Go(t));
    OneRun(s3, Go(t));
    FirstThen(s2, Go(t), [Go(t)]);
    FirstThen(s1, Go(t), [Go(t)] + [Go(t)]);
    FirstThen(s, Lock(t), [Go(t)] + ([Go(t)] + [Go(t)]));
  }

  lemma FirstThen(s: State, e: Event, es: seq<Event>)
    requires Enabled(s, e) && Runs(Step(s, e), es)
    ensures Runs(s, [e] + es) && After(s, [e] + es) == After(Step(s, e), es)
  {
    assert ([e] + es)[1..] == es;
  }

  lemma {:induction false} KindKept(s: State, es: seq<Event>)
    requires Runs(s, es)
    ensures After(s, es).m.kind == s.m.kind
    decreases es
  {
    if es != [] { KindKept(Step(s, es[0]), es[1..]); }
  }

  // ----- the calls in place, for a thread that runs undisturbed -----

  datatype Code = Ok | Deadlock | Again | Abort

  // A thread's own steps up to the end of its call.
  function Solo(m: Futex, t: Tid, th: Thread, n: nat): Move
    decreases n
  {
    if n == 0 then Move(m, th) else var move := Local(m, t, th); Solo(move.m, t, move.th, n - 1)
  }

  class DmtcpMutex {
    const kind: Kind
    var futex: nat
    var owner: nat
    var count: nat

    function View(): Futex
      reads this
    {
      Futex(kind, futex, owner, count)
    }

    constructor (kind: Kind)
      ensures View() == Futex(kind, FREE, 0, 0)
    {
      this.kind, futex, owner, count := kind, FREE, 0, 0;
    }

    // The call does to the mutex what the thread's steps do, and says so by its result.
    method TryLock(tid: Tid) returns (r: Code, ghost n: nat)
      modifies this
      ensures n <= 4
      ensures var end := Solo(old(View()), tid,
          Thread(if kind == Lll then TrySwap(false) else ReadOwner(false), 0, 0), n);
              && end.m == View()
              && end.th == (if r == Abort then Thread(Aborted(CountOverflow), 0, 0)
                  else Thread(Idle, if r == Ok then 1 else 0, 0))
      ensures r == Deadlock <==> kind == Normal && old(owner) == tid
      ensures r == Again <==> old(futex) != FREE && (kind == Lll || old(owner) != tid)
    {
      n := 0;
      if kind != Lll {
        n := 1;
        if owner == tid {
          if kind == Recursive {
            if Inc(count) == 0 { return Abort, 2; }
            count := Inc(count);
            return Ok, 4;
          }
          return Deadlock, 1;
        }
      }
      if futex == FREE {
        futex := ACQUIRED;
        owner := Mark(kind, tid);
        count := 1;
        return Ok, n + 3;
      }
      return Again, n + 1;
    }

    // woken is whether futex_wake was called.
    method Unlock(tid: Tid) returns (r: Code, woken: bool, ghost n: nat)
      modifies this
      ensures n <= 8
      ensures var end := Solo(old(View()), tid, Thread(CheckOwner, 0, 0), n);
              && end.m == View()
              && (if r == Ok then end.th == Thread(Idle, 0, 1) else end.th.pc.Aborted?)
      ensures woken <==> r == Ok && old(futex) == CONTENDED && futex == FREE
    {
      woken := false;
      if owner != Mark(kind, tid) { return Abort, false, 1; }
      count := Dec(count);
      SoloDecrement(old(View()), tid);
      if count == 0 {
        r, woken, n := Release(tid);
        SoloSplit(old(View()), tid, Thread(CheckOwner, 0, 0), 4, n);
        n := n + 4;
        return;
      }
      return Ok, false, 4;
    }

    method Release(tid: Tid) returns (r: Code, woken: bool, ghost n: nat)
      modifies this
      ensures n <= 4
      ensures var end := Solo(old(View()), tid, Thread(ClearOwner, 0, 1), n);
              && end.m == View()
              && (if r == Ok then end.th == Thread(Idle, 0, 1) else end.th.pc.Aborted?)
      ensures woken <==> r == Ok && old(futex) == CONTENDED && futex == FREE
    {
      owner := 0;
      if futex == ACQUIRED {
        futex := FREE;
        return Ok, false, 2;
      } else {
        if futex != CONTENDED { return Abort, false, 3; }
        futex := FREE;
        return Ok, true, 4;
      }
    }
  }

  lemma {:induction false} SoloSplit(m: Futex, t: Tid, th: Thread, a: nat, b: nat)
    ensures Solo(m, t, th, a + b) == Solo(Solo(m, t, th, a).m, t, Solo(m, t, th, a).th, b)
    decreases a
  {
    if a > 0 { SoloSplit(Local(m, t, th).m, t, Local(m, t, th).th, a - 1, b); }
  }

  lemma SoloDecrement(m: Futex, t: Tid)
    requires m.owner == Mark(m.kind, t)
    ensures Solo(m, t, Thread(CheckOwner, 0, 0), 4)
            == Move(m.(count := Dec(m.count)), Thread(if Dec(m.count) == 0 then ClearOwner else Idle, 0, 1))
  {
  }
}

/**
 DmtcpRWLock: reader and writer counts packed in one status word, and two futex counters.

 One thread, WRITER, takes the write lock; read locks are tickets, of which a thread may hold
 several.  A status load with its swap is one step, and so is a futex bump with its wake.
 Read locks that ignore queued writers are not part of this model.
 */
module RwLock {

  type Tid = t: nat | t > 0 witness 1
  type Ticket = nat       // 0 is no ticket

  const WORD := 0x1_0000_0000

  // A signed bit field of ten bits.
  function Field(n: int): (f: int)
    ensures -512 <= n <= 511 ==> f == n
  {
    (n + 512) % 1024 - 512
  }

  function Bump(n: nat): nat {
    if n + 1 == WORD then 0 else n + 1
  }

  datatype RPc =
    | Out
    | RLoad                  // status: join or queue
    | RWait(val: nat)        // futex_wait on readerFutex
    | RAsleep(val: nat)
    | In
    | UPick                  // unlock: compare writerTid with the caller
    | UStatus                // status: leave
    | Notify                 // bump writerFutex and wake
    | RAbort                 // assertion on nReaders failed, or unlock took the writer's path

  datatype Reader = Reader(pc: RPc, tid: Tid)

  datatype WPc =
    | WOut
    | WLoad                  // status: announce the writer
    | WWait(val: nat)        // futex_wait on writerFutex
    | WAsleep(val: nat)
    | WSet                   // writerTid = gettid()
    | WIn
    | WPick                  // unlock: compare writerTid with the caller
    | WCheckTid              // assertion on writerTid
    | WCheckReaders          // assertion on nReaders
    | WClear                 // writerTid = 0
    | WStatus                // status: withdraw the writer, admit the queued readers
    | WNext                  // another writer is waiting: bump writerFutex
    | WBump(n: int)          // bump readerFutex and wake n readers
    | WAbort

  // admitted and queued are history: the tickets the two reader counts stand for.
  datatype Lock = Lock(nReaders: int, nWriters: int, nQueued: int, writerTid: nat, readerFutex: nat, writerFutex: nat,
                       admitted: set<Ticket>, queued: set<Ticket>)

  datatype State = State(l: Lock, me: Tid, w: WPc, rs: map<Ticket, Reader>)

  datatype Event =
    | RdLock(k: Ticket, tid: Tid)
    | RdUnlock(k: Ticket)
    | RGo(k: Ticket)
    | RSignal(k: Ticket)               // EINTR
    | WrLock
    | WrUnlock
    | WGo(woken: set<Ticket>)
    | WSignal

  ghost function Sleepers(s: State): set<Ticket> {
    set k | k in s.rs && s.rs[k].pc.RAsleep?
  }

  predicate Moves(pc: RPc) {
    pc.RLoad? || pc.RWait? || pc.UPick? || pc.UStatus? || pc.Notify?
  }

  predicate WMoves(w: WPc) {
    !w.WOut? && !w.WAsleep? && !w.WIn? && !w.WAbort?
  }

  ghost predicate Enabled(s: State, e: Event) {
    match e
    case RdLock(k, tid) => k in s.rs && s.rs[k].pc.Out?
    case RdUnlock(k) => k in s.rs && s.rs[k].pc.In?
    case RGo(k) => k in s.rs && Moves(s.rs[k].pc)
    case RSignal(k) => k in s.rs && s.rs[k].pc.RAsleep?
    case WrLock => s.w.WOut? || s.w.WIn?
    case WrUnlock => s.w.WIn?
    case WGo(woken) =>
      && WMoves(s.w)
      && (if s.w.WBump? then woken <= Sleepers(s) && |woken| <= s.w.n && (|woken| == s.w.n || woken == Sleepers(s))
          else woken == {})
    case WSignal => s.w.WAsleep?
  }

  datatype RMove = RMove(l: Lock, pc: RPc)

  // A reader's own step on the lock.
  function RLocal(l: Lock, k: Ticket, r: Reader): RMove {
    match r.pc
    case RLoad =>
      if l.nWriters > 0 then RMove(l.(nQueued := Field(l.nQueued + 1), queued := l.queued + {k}), RWait(l.readerFutex))
      else RMove(l.(nReaders := Field(l.nReaders + 1), admitted := l.admitted + {k}), In)
    case RWait(val) => RMove(l, if l.readerFutex == val then RAsleep(val) else In)
    case UPick => RMove(l, if l.writerTid == r.tid then RAbort else UStatus)
    case UStatus =>
      if l.nReaders == 0 then RMove(l, RAbort)
      else
        var n := Field(l.nReaders - 1);
        RMove(l.(nReaders := n, admitted := l.admitted - {k}), if n == 0 && l.nWriters > 0 then Notify else Out)
    case Notify => RMove(l.(writerFutex := Bump(l.writerFutex)), Out)
    case pc => RMove(l, pc)
  }

  datatype WMove = WMove(l: Lock, w: WPc)

  // The writer's own step on the lock.
  function WLocal(l: Lock, me: Tid, w: WPc): WMove {
    match w
    case WLoad =>
      var l' := l.(nWriters := Field(l.nWriters + 1));
      WMove(l', if l'.nWriters > 1 || l'.nReaders > 0 then WWait(l.writerFutex) else WSet)
    case WWait(val) => WMove(l, if l.writerFutex == val then WAsleep(val) else WSet)
    case WSet => WMove(l.(writerTid := me), WIn)
    case WPick => WMove(l, if l.writerTid == me then WCheckTid else WAbort)
    case WCheckTid => WMove(l, if l.writerTid == me then WCheckReaders else WAbort)
    case WCheckReaders => WMove(l, if l.nReaders == 0 then WClear else WAbort)
    case WClear => WMove(l.(writerTid := 0), WStatus)
    case WStatus =>
      var n := Field(l.nWriters - 1);
      if n == 0 then
        WMove(l.(nWriters := 0, nReaders := l.nQueued, nQueued := 0,
            admitted := l.admitted + l.queued, queued := {}), WBump(l.nQueued))
      else WMove(l.(nWriters := n), if n > 0 then WNext else WBump(l.nReaders))
    case WNext => WMove(l.(writerFutex := Bump(l.writerFutex)), WOut)
    case WBump(_) => WMove(l.(readerFutex := Bump(l.readerFutex)), WOut)
    case _ => WMove(l, w)
  }

  function SetPc(s: State, k: Ticket, pc: RPc): State
    requires k in s.rs
  {
    s.(rs := s.rs[k := s.rs[k].(pc := pc)])
  }

  ghost function Step(s: State, e: Event): State
    requires Enabled(s, e)
  {
    match e
    case RdLock(k, tid) =>
      if s.l.writerTid == tid then s                                   // EDEADLK
      else s.(rs := s.rs[k := Reader(RLoad, tid)])
    case RdUnlock(k) => SetPc(s, k, UPick)
    case RGo(k) =>
      var move := RLocal(s.l, k, s.rs[k]);
      var w := if s.rs[k].pc.Notify? && s.w.WAsleep? then WSet else s.w;
      SetPc(s, k, move.pc).(l := move.l, w := w)
    case RSignal(k) => SetPc(s, k, RWait(s.rs[k].pc.val))
    case WrLock => if s.l.writerTid == s.me then s else s.(w := WLoad) // EDEADLK
    case WrUnlock => s.(w := WPick)
    case WGo(woken) =>
      var move := WLocal(s.l, s.me, s.w);
      var rs := map k | k in s.rs :: if k in woken then s.rs[k].(pc := In) else s.rs[k];
      State(move.l, s.me, move.w, rs)
    case WSignal => s.(w := WWait(s.w.val))
  }

  ghost predicate Runs(s: State, es: seq<Event>)
    decreases es
  {
    es == [] || (Enabled(s, es[0]) && Runs(Step(s, es[0]), es[1..]))
  }

  ghost function After(s: State, es: seq<Event>): State
    requires Runs(s, es)
    decreases es
  {
    if es == [] then s else After(Step(s, es[0]), es[1..])
  }

  ghost predicate Init(s: State) {
    && s.l == Lock(0, 0, 0, 0, 0, 0, {}, {}) && s.w.WOut? && 0 !in s.rs
    && forall k :: k in s.rs ==> s.rs[k].pc.Out?
  }

  // ----- the invariant -----

  // The writer has the lock: from the end of its wait to its status step.
  predicate Writing(w: WPc) {
    w.WSet? || w.WIn? || w.WPick? || w.WCheckTid? || w.WCheckReaders? || w.WClear? || w.WStatus?
  }

  predicate Waiting(w: WPc) {
    w.WWait? || w.WAsleep?
  }

  // The counts stand for the tickets.
  ghost predicate CountsOk(l: Lock, w: WPc, keys: set<Ticket>) {
    && l.admitted !! l.queued && l.admitted + l.queued <= keys && 0 !in keys && |keys| <= 511
    && l.nReaders == |l.admitted| && l.nQueued == |l.queued|
    && l.nWriters == (if Writing(w) || Waiting(w) then 1 else 0)
    && (l.queued != {} ==> l.nWriters > 0)
  }

  // note is the ticket about to wake the writer, 0 if there is none.
  ghost predicate WriterOk(l: Lock, me: Tid, w: WPc, note: Ticket) {
    && l.readerFutex < WORD && l.writerFutex < WORD
    && l.writerTid == (if w.WIn? || w.WPick? || w.WCheckTid? || w.WCheckReaders? || w.WClear? then me else 0)
    && (Writing(w) ==> l.admitted == {})
    && (note != 0 ==> l.admitted == {} && Waiting(w) && w.val == l.writerFutex)
    && (w.WAsleep? ==> w.val == l.writerFutex)
    && (Waiting(w) && w.val == l.writerFutex ==> l.admitted != {} || note != 0)
    && (Waiting(w) && w.val != l.writerFutex ==> l.admitted == {})
    && (w.WBump? ==> w.n >= 0)
    && !w.WAbort? && !w.WNext?
  }

  predicate ReaderOk(l: Lock, bumping: bool, note: Ticket, k: Ticket, pc: RPc) {
    && (k == note <==> pc.Notify?)
    && match pc
       case Out => k !in l.admitted && k !in l.queued
       case RLoad => k !in l.admitted && k !in l.queued
       case Notify => k !in l.admitted && k !in l.queued
       case RWait(val) =>
         if k in l.admitted then (if bumping then val == l.readerFutex else val != l.readerFutex)
         else k in l.queued && val == l.readerFutex
       case RAsleep(val) => val == l.readerFutex && (if bumping then k in l.admitted else k in l.queued)
       case RAbort => false
       case _ => k in l.admitted
  }

  ghost predicate ReadersOk(s: State, note: Ticket) {
    forall k :: k in s.rs ==> ReaderOk(s.l, s.w.WBump?, note, k, s.rs[k].pc)
  }

  // Tickets on their way into, or in, futex_wait.
  ghost function Pending(rs: map<Ticket, Reader>): set<Ticket> {
    set k | k in rs && (rs[k].pc.RWait? || rs[k].pc.RAsleep?)
  }

  ghost predicate Inv(s: State, note: Ticket) {
    && CountsOk(s.l, s.w, s.rs.Keys) && WriterOk(s.l, s.me, s.w, note) && ReadersOk(s, note)
    && (note != 0 ==> note in s.rs) && (s.w.WBump? ==> |Pending(s.rs)| <= s.w.n)
  }

  lemma Within(a: set<Ticket>, b: set<Ticket>)
    requires a <= b
    ensures |a| <= |b|
  {
    assert b == a + (b - a) && |b| == |a| + |b - a|;
  }

  // Who is about to wake the writer after a step.
  ghost function Notifier(s: State, e: Event, note: Ticket): Ticket
    requires Enabled(s, e)
  {
    if e.RGo? then
      if s.rs[e.k].pc.Notify? then 0 else if RLocal(s.l, e.k, s.rs[e.k]).pc.Notify? then e.k else note
    else note
  }

  // ----- a reader's step -----

  lemma InsertCount(a: set<Ticket>, k: Ticket, keys: set<Ticket>)
    requires a <= keys && k in keys && k !in a && |keys| <= 511
    ensures |a + {k}| == |a| + 1 == Field(|a| + 1)
  {
    Within(a + {k}, keys);
  }

  lemma RemoveCount(a: set<Ticket>, k: Ticket, keys: set<Ticket>)
    requires a <= keys && k in a && |keys| <= 511
    ensures |a - {k}| == |a| - 1 == Field(|a| - 1)
  {
    Within(a, keys);
  }

  lemma ReaderCounts(l: Lock, w: WPc, keys: set<Ticket>, note: Ticket, k: Ticket, r: Reader)
    requires CountsOk(l, w, keys) && k in keys && ReaderOk(l, w.WBump?, note, k, r.pc)
    ensures CountsOk(RLocal(l, k, r).l, w, keys)
  {
    if r.pc.RLoad? {
      if l.nWriters > 0 { InsertCount(l.queued, k, keys); } else { InsertCount(l.admitted, k, keys); }
    } else if r.pc.UStatus? {
      RemoveCount(l.admitted, k, keys);
    }
  }

  lemma ReaderWriter(l: Lock, me: Tid, w: WPc, keys: set<Ticket>, note: Ticket, k: Ticket, r: Reader)
    requires CountsOk(l, w, keys) && k in keys && ReaderOk(l, w.WBump?, note, k, r.pc) && WriterOk(l, me, w, note)
    ensures var move := RLocal(l, k, r);
            var w' := if r.pc.Notify? && w.WAsleep? then WSet else w;
            var note' := if r.pc.Notify? then 0 else if move.pc.Notify? then k else note;
            WriterOk(move.l, me, w', note')
  {
    if r.pc.UStatus? {
      Within(l.admitted, keys);
      assert |l.admitted - {k}| == |l.admitted| - 1;
    }
  }

  lemma ReaderSelf(l: Lock, me: Tid, w: WPc, keys: set<Ticket>, note: Ticket, k: Ticket, r: Reader)
    requires CountsOk(l, w, keys) && k in keys && ReaderOk(l, w.WBump?, note, k, r.pc) && WriterOk(l, me, w, note)
    requires Moves(r.pc)
    ensures var move := RLocal(l, k, r);
            var note' := if r.pc.Notify? then 0 else if move.pc.Notify? then k else note;
            ReaderOk(move.l, w.WBump?, note', k, move.pc)
  {
  }

  lemma ReaderOther(l: Lock, l': Lock, bumping: bool, note: Ticket, note': Ticket, k: Ticket, o: Ticket, pc: RPc)
    requires ReaderOk(l, bumping, note, o, pc) && o != k && o != 0
    requires note' == note || (note' == k && note == 0) || (note == k && note' == 0)
    requires l'.readerFutex == l.readerFutex && l'.admitted - {k} == l.admitted - {k}
        && l'.queued - {k} == l.queued - {k}
    ensures ReaderOk(l', bumping, note', o, pc)
  {
    assert o in l'.admitted <==> o in l'.admitted - {k};
    assert o in l'.queued <==> o in l'.queued - {k};
  }

  lemma ReaderOthers(s: State, k: Ticket, note: Ticket)
    requires Enabled(s, RGo(k)) && Inv(s, note)
    ensures forall o :: o in s.rs && o != k ==>
        ReaderOk(Step(s, RGo(k)).l, s.w.WBump?, Notifier(s, RGo(k), note), o, s.rs[o].pc)
  {
    var l', note' := Step(s, RGo(k)).l, Notifier(s, RGo(k), note);
    assert ReaderOk(s.l, s.w.WBump?, note, k, s.rs[k].pc);
    ReaderNote(s.l, s.me, s.w, note, k, s.rs[k]);
    ReaderFrame(s.l, k, s.rs[k]);
    forall o | o in s.rs && o != k ensures ReaderOk(l', s.w.WBump?, note', o, s.rs[o].pc) {
      ReaderOther(s.l, l', s.w.WBump?, note, note', k, o, s.rs[o].pc);
    }
  }

  // Nobody else's ticket moves, and readerFutex is the writer's to bump.
  lemma ReaderFrame(l: Lock, k: Ticket, r: Reader)
    ensures RLocal(l, k, r).l.readerFutex == l.readerFutex
    ensures RLocal(l, k, r).l.admitted - {k} == l.admitted - {k} && RLocal(l, k, r).l.queued - {k} == l.queued - {k}
  {
  }

  lemma ReaderNote(l: Lock, me: Tid, w: WPc, note: Ticket, k: Ticket, r: Reader)
    requires ReaderOk(l, w.WBump?, note, k, r.pc) && WriterOk(l, me, w, note)
    ensures RLocal(l, k, r).pc.Notify? && !r.pc.Notify? ==> note == 0
  {
  }

  lemma ReaderReaders(s: State, k: Ticket, note: Ticket)
    requires Enabled(s, RGo(k)) && Inv(s, note)
    ensures ReadersOk(Step(s, RGo(k)), Notifier(s, RGo(k), note)) && Step(s, RGo(k)).w.WBump? == s.w.WBump?
  {
    assert ReaderOk(s.l, s.w.WBump?, note, k, s.rs[k].pc);
    ReaderSelf(s.l, s.me, s.w, s.rs.Keys, note, k, s.rs[k]);
    ReaderOthers(s, k, note);
  }

  lemma ReaderGo(s: State, k: Ticket, note: Ticket)
    requires Enabled(s, RGo(k)) && Inv(s, note)
    ensures Inv(Step(s, RGo(k)), Notifier(s, RGo(k), note))
  {
    var s', r := Step(s, RGo(k)), s.rs[k];
    assert s'.rs.Keys == s.rs.Keys;
    assert ReaderOk(s.l, s.w.WBump?, note, k, r.pc);
    ReaderCounts(s.l, s.w, s.rs.Keys, note, k, r);
    ReaderWriter(s.l, s.me, s.w, s.rs.Keys, note, k, r);
    ReaderReaders(s, k, note);
    PendingShrinks(s.rs, k, s'.rs[k], s.l);
  }

  // Nobody starts to wait unless a writer is about.
  lemma PendingShrinks(rs: map<Ticket, Reader>, k: Ticket, r: Reader, l: Lock)
    requires k in rs && r.pc == RLocal(l, k, rs[k]).pc && Moves(rs[k].pc)
    ensures l.nWriters <= 0 ==> |Pending(rs[k := r])| <= |Pending(rs)|
  {
    if l.nWriters <= 0 {
      assert Pending(rs[k := r]) <= Pending(rs);
      Within(Pending(rs[k := r]), Pending(rs));
    }
  }

  // ----- a call begins or a signal arrives -----

  lemma ReaderMoves(s: State, k: Ticket, r: Reader, note: Ticket)
    requires Inv(s, note) && k in s.rs && ReaderOk(s.l, s.w.WBump?, note, k, r.pc)
    requires r.pc.RWait? || r.pc.RAsleep? ==> k in Pending(s.rs)
    ensures Inv(s.(rs := s.rs[k := r]), note)
  {
    var rs' := s.rs[k := r];
    assert rs'.Keys == s.rs.Keys;
    assert Pending(rs') <= Pending(s.rs);
    Within(Pending(rs'), Pending(s.rs));
  }

  lemma WriterMoves(s: State, w: WPc, note: Ticket)
    requires Inv(s, note) && !w.WBump? && !s.w.WBump?
    requires CountsOk(s.l, w, s.rs.Keys) && WriterOk(s.l, s.me, w, note)
    ensures Inv(s.(w := w), note)
  {
  }

  lemma CallInv(s: State, e: Event, note: Ticket)
    requires Enabled(s, e) && Inv(s, note) && !e.RGo? && !e.WGo?
    ensures Inv(Step(s, e), note)
  {
    match e
    case RdLock(k, tid) => ReaderMoves(s, k, Reader(RLoad, tid), note);
    case RdUnlock(k) => ReaderMoves(s, k, s.rs[k].(pc := UPick), note);
    case RSignal(k) => ReaderMoves(s, k, s.rs[k].(pc := RWait(s.rs[k].pc.val)), note);
    case WrLock => if s.l.writerTid != s.me { WriterMoves(s, WLoad, note); }
    case WrUnlock => WriterMoves(s, WPick, note);
    case WSignal => WriterMoves(s, WWait(s.w.val), note);
  }

  // ----- the writer's step -----

  // Up to its status step the writer leaves the readers' side alone.
  lemma WriterLocal(l: Lock, me: Tid, w: WPc, keys: set<Ticket>, note: Ticket)
    requires CountsOk(l, w, keys) && WriterOk(l, me, w, note) && WMoves(w) && !w.WBump? && !w.WStatus?
    ensures var move := WLocal(l, me, w);
            && CountsOk(move.l, move.w, keys) && WriterOk(move.l, me, move.w, note) && !move.w.WBump?
            && move.l.admitted == l.admitted && move.l.queued == l.queued && move.l.readerFutex == l.readerFutex
  {
  }

  lemma WriterGo(s: State, woken: set<Ticket>, note: Ticket)
    requires Enabled(s, WGo(woken)) && Inv(s, note) && !s.w.WBump? && !s.w.WStatus?
    ensures Inv(Step(s, WGo(woken)), note)
  {
    assert Step(s, WGo(woken)).rs == s.rs;
    WriterLocal(s.l, s.me, s.w, s.rs.Keys, note);
  }

  lemma WriterStatus(s: State, woken: set<Ticket>, note: Ticket)
    requires Enabled(s, WGo(woken)) && Inv(s, note) && s.w.WStatus?
    ensures Inv(Step(s, WGo(woken)), note)
  {
    var s' := Step(s, WGo(woken));
    assert s'.rs == s.rs;
    Within(Pending(s.rs), s.l.queued);
  }

  // The limit on the wake is never too small.
  lemma WakesEveryone(s: State, woken: set<Ticket>, note: Ticket)
    requires Enabled(s, WGo(woken)) && Inv(s, note) && s.w.WBump?
    ensures woken == Sleepers(s)
  {
    Within(Sleepers(s), Pending(s.rs));
    assert |Sleepers(s) - woken| == |Sleepers(s)| - |woken|;
  }

  lemma WriterBump(s: State, woken: set<Ticket>, note: Ticket)
    requires Enabled(s, WGo(woken)) && Inv(s, note) && s.w.WBump?
    ensures Inv(Step(s, WGo(woken)), note)
  {
    WakesEveryone(s, woken, note);
    assert Step(s, WGo(woken)).rs.Keys == s.rs.Keys;
  }

  lemma StepInv(s: State, e: Event, note: Ticket)
    requires Enabled(s, e) && Inv(s, note)
    ensures Inv(Step(s, e), Notifier(s, e, note))
  {
    if e.RGo? {
      ReaderGo(s, e.k, note);
    } else if !e.WGo? {
      CallInv(s, e, note);
    } else if s.w.WBump? {
      WriterBump(s, e.woken, note);
    } else if s.w.WStatus? {
      WriterStatus(s, e.woken, note);
    } else {
      WriterGo(s, e.woken, note);
    }
  }

  lemma {:induction false} RunInv(s: State, es: seq<Event>, note: Ticket) returns (note': Ticket)
    requires Inv(s, note) && Runs(s, es)
    ensures Inv(After(s, es), note')
    decreases es
  {
    if es == [] {
      note' := note;
    } else {
      StepInv(s, es[0], note);
      note' := RunInv(Step(s, es[0]), es[1..], Notifier(s, es[0], note));
    }
  }

  // At most 511 read locks are outstanding at any time.
  ghost predicate Start(s: State) {
    Init(s) && |s.rs.Keys| <= 511
  }

  lemma Reached(init: State, es: seq<Event>) returns (note: Ticket)
    requires Start(init) && Runs(init, es)
    ensures Inv(After(init, es), note)
  {
    note := RunInv(init, es, 0);
  }

  // ----- what every run guarantees -----

  // The read lock is held: lock has returned and unlock has not taken effect.
  predicate Reading(pc: RPc) {
    pc.In? || pc.UPick? || pc.UStatus?
  }

  lemma ReadersExcludeWriter(init: State, es: seq<Event>, k: Ticket)
    requires Start(init) && Runs(init, es) && k in After(init, es).rs && Reading(After(init, es).rs[k].pc)
    ensures !Writing(After(init, es).w)
  {
    var note := Reached(init, es);
    var s := After(init, es);
    assert ReaderOk(s.l, s.w.WBump?, note, k, s.rs[k].pc);
  }

  // nReaders and nReadersQueued count the admitted and the queued readers; every read lock held is admitted,
  // every reader in futex_wait is one or the other, and readers queue only while a writer is announced.
  lemma CountsAreExact(init: State, es: seq<Event>)
    requires Start(init) && Runs(init, es)
    ensures var s := After(init, es);
            && s.l.nReaders == |s.l.admitted| && s.l.nQueued == |s.l.queued| && s.l.admitted !! s.l.queued
            && (s.l.queued != {} ==> s.l.nWriters > 0)
            && (forall k :: k in s.l.queued ==> k in s.rs && (s.rs[k].pc.RWait? || s.rs[k].pc.RAsleep?))
            && (forall k :: k in s.rs && Reading(s.rs[k].pc) ==> k in s.l.admitted)
            && (forall k :: k in s.rs && (s.rs[k].pc.RWait? || s.rs[k].pc.RAsleep?) ==> k in s.l.admitted + s.l.queued)
            && (forall k :: k in s.rs && (s.rs[k].pc.Out? || s.rs[k].pc.RLoad?) ==> k !in s.l.admitted + s.l.queued)
  {
    var note := Reached(init, es);
    var s := After(init, es);
    forall k | k in s.rs ensures ReaderOk(s.l, s.w.WBump?, note, k, s.rs[k].pc) {
    }
  }

  // No assertion fires, and unlock never takes the wrong path.
  lemma NoAssertionFires(init: State, es: seq<Event>)
    requires Start(init) && Runs(init, es)
    ensures !After(init, es).w.WAbort? && forall k :: k in After(init, es).rs ==> !After(init, es).rs[k].pc.RAbort?
  {
    var note := Reached(init, es);
    var s := After(init, es);
    forall k | k in s.rs ensures !s.rs[k].pc.RAbort? {
      assert ReaderOk(s.l, s.w.WBump?, note, k, s.rs[k].pc);
    }
  }

  // The writer's status step overwrites a reader count of zero and admits exactly the queued readers.
  lemma HandoverLosesNoReader(init: State, es: seq<Event>)
    requires Start(init) && Runs(init, es) && After(init, es).w.WStatus?
    ensures var s := After(init, es); var s' := Step(s, WGo({}));
            && Enabled(s, WGo({})) && s.l.nReaders == 0 && s'.w == WBump(|s.l.queued|)
            && s'.l.admitted == s.l.queued && s'.l.queued == {} && s'.l.nReaders == |s'.l.admitted|
  {
    var note := Reached(init, es);
  }

  // Its wake reaches every sleeping reader, and nobody who is not asleep is left to oversleep.
  lemma HandoverWakesAll(init: State, es: seq<Event>, woken: set<Ticket>)
    requires Start(init) && Runs(init, es) && After(init, es).w.WBump? && Enabled(After(init, es), WGo(woken))
    ensures var s := After(init, es); var s' := Step(s, WGo(woken));
            forall k :: k in s.l.admitted ==>
              k in s'.rs && (Reading(s'.rs[k].pc) || (s'.rs[k].pc.RWait? && RLocal(s'.l, k, s'.rs[k]).pc.In?))
  {
    var note := Reached(init, es);
    var s := After(init, es);
    WriterBump(s, woken, note);
    var s' := Step(s, WGo(woken));
    forall k | k in s.l.admitted ensures k in s'.rs && ReaderOk(s'.l, false, note, k, s'.rs[k].pc) {
    }
  }

  // Whoever sleeps has somebody to wake it: a queued reader the announced writer, the writer a reader
  // still inside or one about to bump its futex.
  lemma SleepersHaveACause(init: State, es: seq<Event>)
    requires Start(init) && Runs(init, es)
    ensures var s := After(init, es);
            && (Sleepers(s) != {} ==> s.l.nWriters > 0 || s.w.WBump?)
            && (s.w.WAsleep? ==> s.l.admitted != {} || exists k :: k in s.rs && s.rs[k].pc.Notify?)
  {
    var note := Reached(init, es);
    var s := After(init, es);
    if k :| k in Sleepers(s) {
      assert ReaderOk(s.l, s.w.WBump?, note, k, s.rs[k].pc);
    }
    assert note != 0 ==> ReaderOk(s.l, s.w.WBump?, note, note, s.rs[note].pc);
  }

  // ----- without the bound -----

  // Read locks taken one after the other with nobody else about.
  ghost function Arrivals(ks: seq<Ticket>): seq<Event>
    decreases ks
  {
    if ks == [] then [] else [RdLock(ks[0], 1), RGo(ks[0])] + Arrivals(ks[1..])
  }

  ghost predicate Calm(s: State) {
    s.l.nWriters == 0 && s.l.writerTid == 0 && s.w.WOut?
  }

  ghost predicate AllAt(s: State, ks: seq<Ticket>, pc: RPc) {
    forall i :: 0 <= i < |ks| ==> ks[i] in s.rs && s.rs[ks[i]].pc == pc
  }

  ghost predicate Distinct(ks: seq<Ticket>) {
    forall i, j :: 0 <= i < j < |ks| ==> ks[i] != ks[j]
  }

  lemma TwoSteps(s: State, a: Event, b: Event, es: seq<Event>)
    requires Enabled(s, a) && Enabled(Step(s, a), b) && Runs(Step(Step(s, a), b), es)
    ensures Runs(s, [a, b] + es) && After(s, [a, b] + es) == After(Step(Step(s, a), b), es)
  {
    assert ([a, b] + es)[1..] == [b] + es && ([b] + es)[1..] == es;
  }

  ghost function ArriveOne(s: State, k: Ticket): State
    requires Calm(s) && k in s.rs && s.rs[k].pc.Out?
  {
    Step(Step(s, RdLock(k, 1)), RGo(k))
  }

  lemma ArriveOneFacts(s: State, k: Ticket)
    requires Calm(s) && k in s.rs && s.rs[k].pc.Out?
    ensures var s' := ArriveOne(s, k);
            Calm(s') && s'.l.nReaders == Field(s.l.nReaders + 1) && s'.rs == s.rs[k := Reader(In, 1)]
  {
  }

  lemma FieldAdds(a: int, b: int)
    ensures Field(Field(a) + b) == Field(a + b)
  {
  }

  ghost function Arrived(s: State, ks: seq<Ticket>): State
    requires Calm(s) && Distinct(ks) && AllAt(s, ks, Out)
    decreases ks
  {
    if ks == [] then s
    else
      ArriveOneFacts(s, ks[0]);
      Arrived(ArriveOne(s, ks[0]), ks[1..])
  }

  lemma {:induction false} ArrivalsOthers(s: State, ks: seq<Ticket>, k: Ticket)
    requires Calm(s) && Distinct(ks) && AllAt(s, ks, Out) && k in s.rs && k !in ks
    ensures k in Arrived(s, ks).rs && Arrived(s, ks).rs[k] == s.rs[k]
    decreases ks
  {
    if ks != [] {
      ArriveOneFacts(s, ks[0]);
      ArrivalsOthers(ArriveOne(s, ks[0]), ks[1..], k);
    }
  }

  // The count after them is their number, cut to ten bits.
  lemma {:induction false} ArrivalsCount(s: State, ks: seq<Ticket>)
    requires Calm(s) && Distinct(ks) && AllAt(s, ks, Out)
    ensures var t := Arrived(s, ks);
            Calm(t) && AllAt(t, ks, In)
            && t.l.nReaders == (if ks == [] then s.l.nReaders else Field(s.l.nReaders + |ks|))
    decreases ks
  {
    if ks != [] {
      var s' := ArriveOne(s, ks[0]);
      ArriveOneFacts(s, ks[0]);
      ArrivalsCount(s', ks[1..]);
      ArrivalsOthers(s', ks[1..], ks[0]);
      FieldAdds(s.l.nReaders + 1, |ks| - 1);
      assert forall i :: 0 < i < |ks| ==> ks[i] == ks[1..][i - 1];
    }
  }

  lemma {:induction false} ArrivalsRun(s: State, ks: seq<Ticket>, more: seq<Event>)
    requires Calm(s) && Distinct(ks) && AllAt(s, ks, Out) && Runs(Arrived(s, ks), more)
    ensures Runs(s, Arrivals(ks) + more) && After(s, Arrivals(ks) + more) == After(Arrived(s, ks), more)
    decreases ks
  {
    if ks == [] {
      assert Arrivals(ks) + more == more;
    } else {
      ArriveOneFacts(s, ks[0]);
      ArrivalsRun(ArriveOne(s, ks[0]), ks[1..], more);
      TwoSteps(s, RdLock(ks[0], 1), RGo(ks[0]), Arrivals(ks[1..]) + more);
      assert Arrivals(ks) + more == [RdLock(ks[0], 1), RGo(ks[0])] + (Arrivals(ks[1..]) + more);
    }
  }

  // The writer's first two steps against readers only.
  lemma WriterTries(t: State)
    requires Calm(t)
    ensures Runs(t, [WrLock, WGo({})])
    ensures var u := After(t, [WrLock, WGo({})]); u.rs == t.rs && (Writing(u.w) <==> t.l.nReaders <= 0)
  {
    var t1 := Step(t, WrLock);
    assert t1 == t.(w := WLoad);
    var u := Step(t1, WGo({}));
    assert u.rs == t.rs;
    assert Runs(u, []);
    TwoSteps(t, WrLock, WGo({}), []);
    assert [WrLock, WGo({})] + [] == [WrLock, WGo({})];
  }

  lemma FieldSigns()
    ensures Field(0) == 0 && Field(512) == -512 && forall n :: 0 < n < 512 ==> Field(n) > 0
  {
  }

  // With n readers inside, the next writer walks in exactly when n, cut to ten bits, is not positive:
  // from 512 readers on.
  lemma OverflowLetsTheWriterIn(init: State, ks: seq<Ticket>)
    requires Init(init) && Distinct(ks) && AllAt(init, ks, Out)
    ensures var es := Arrivals(ks) + [WrLock, WGo({})];
            && Runs(init, es) && AllAt(After(init, es), ks, In)
            && (Writing(After(init, es).w) <==> Field(|ks|) <= 0)
    ensures Field(512) == -512 && forall n :: 0 < n < 512 ==> Field(n) > 0
  {
    FieldSigns();
    ArrivalsCount(init, ks);
    WriterTries(Arrived(init, ks));
    ArrivalsRun(init, ks, [WrLock, WGo({})]);
  }

  // ----- the calls in place, up to the point where they would wait -----

  datatype Code = Ok | Deadlock | Waits | Abort

  class DmtcpRWLock {
    var nReaders: int
    var nWriters: int
    var nQueued: int
    var writerTid: nat
    var readerFutex: nat
    var writerFutex: nat

    // The record as a step sees it; the two sets are the caller's history.
    function View(admitted: set<Ticket>, queued: set<Ticket>): Lock
      reads this
    {
      Lock(nReaders, nWriters, nQueued, writerTid, readerFutex, writerFutex, admitted, queued)
    }

    constructor ()
      ensures View({}, {}) == Lock(0, 0, 0, 0, 0, 0, {}, {})
    {
      nReaders, nWriters, nQueued, writerTid, readerFutex, writerFutex := 0, 0, 0, 0, 0, 0;
    }

    // Waits with waitVal, or is in; refused to the thread that holds the write lock.
    method RdLock(tid: Tid, ghost k: Ticket, ghost adm: set<Ticket>, ghost qd: set<Ticket>)
        returns (r: Code, waitVal: nat)
      modifies this
      ensures r == Deadlock <==> old(writerTid) == tid
      ensures r == Deadlock ==> View(adm, qd) == old(View(adm, qd))
      ensures r != Deadlock ==>
                RLocal(old(View(adm, qd)), k, Reader(RLoad, tid))
                == if r == Waits then RMove(View(adm, qd + {k}), RWait(waitVal)) else RMove(View(adm + {k}, qd), In)
      ensures r == Waits <==> old(writerTid) != tid && old(nWriters) > 0
    {
      waitVal := readerFutex;
      if writerTid == tid { return Deadlock, waitVal; }
      if nWriters > 0 {
        nQueued := Field(nQueued + 1);
        return Waits, waitVal;
      }
      nReaders := Field(nReaders + 1);
      return Ok, waitVal;
    }

    // notified is whether the writer was woken.
    method RdUnlock(tid: Tid, ghost k: Ticket, ghost adm: set<Ticket>, ghost qd: set<Ticket>)
        returns (r: Code, notified: bool)
      modifies this
      ensures r == Abort <==> old(nReaders) == 0
      ensures r != Abort ==>
                var left := RLocal(old(View(adm, qd)), k, Reader(UStatus, tid));
                && (notified <==> left.pc.Notify?)
                && View(adm - {k}, qd) == if notified then RLocal(left.l, k, Reader(Notify, tid)).l else left.l
    {
      notified := false;
      if nReaders == 0 { return Abort, false; }
      nReaders := Field(nReaders - 1);
      if nReaders == 0 && nWriters > 0 {
        writerFutex := Bump(writerFutex);
        notified := true;
      }
      r := Ok;
    }

    method WrLock(tid: Tid, ghost adm: set<Ticket>, ghost qd: set<Ticket>) returns (r: Code, waitVal: nat)
      modifies this
      ensures r == Deadlock <==> old(writerTid) == tid
      ensures r == Deadlock ==> View(adm, qd) == old(View(adm, qd))
      ensures r != Deadlock ==>
                var announced := WLocal(old(View(adm, qd)), tid, WLoad);
                if r == Waits then announced == WMove(View(adm, qd), WWait(waitVal))
                else announced.w == WSet && WLocal(announced.l, tid, WSet) == WMove(View(adm, qd), WIn)
    {
      waitVal := writerFutex;
      if writerTid == tid { return Deadlock, waitVal; }
      nWriters := Field(nWriters + 1);
      if nWriters > 1 || nReaders > 0 { return Waits, waitVal; }
      writerTid := tid;
      return Ok, waitVal;
    }

    // The three assertions, the handover of the queued readers, and the bump.
    method WrUnlock(tid: Tid, ghost adm: set<Ticket>, ghost qd: set<Ticket>) returns (r: Code)
      modifies this
      ensures r == Ok <==> old(writerTid) == tid && old(nReaders) == 0
      ensures r == Ok ==>
                var cleared := WLocal(old(View(adm, qd)), tid, WClear);
                var status := WLocal(cleared.l, tid, cleared.w);
                WLocal(status.l, tid, status.w) == WMove(View(status.l.admitted, status.l.queued), WOut)
      ensures r != Ok ==> View(adm, qd) == old(View(adm, qd))
    {
      if writerTid != tid || nReaders != 0 { return Abort; }
      writerTid := 0;
      nWriters := Field(nWriters - 1);
      if nWriters == 0 {
        nReaders := nQueued;
        nQueued := 0;
      }
      if nWriters > 0 {
        writerFutex := Bump(writerFutex);
      } else {
        readerFutex := Bump(readerFutex);
      }
      r := Ok;
    }
  }
}

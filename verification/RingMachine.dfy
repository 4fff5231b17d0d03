/**
 The message ring between one sender and one receiver as a transition system: the steps of `sent_to`
 and `cxl_unwrap`, a crash of either side between any two of them, the monitor's replay of the newest
 record of the side that stopped, and its recovery scans, one step per access that the other side can
 see. A counted link or unlink is one step here; that it is all or nothing across a crash is the
 business of the reference-counting protocol.
 */
module RingMachine {
  import opened RefTypes

  const MESSAGE_BUFFER_SIZE := 16

  /** Where the sender is in `sent_to`. Linked: between S1 and S2. */
  datatype SenderPc = SIdle | SEntered(o: Obj) | STested(o: Obj) | SRoom(o: Obj) | SLinked(o: Obj)

  /** The sender's life: running, stopped, its newest record replayed, and the monitor's two scans of the
      queue it owns. Hold: the monitor has read a reference from slot i and is about to release it. */
  datatype SenderMode =
    | SUp | SDown | SReplayed
    | SFirst(i: nat) | SFirstHold(i: nat, o: Obj) | SNext(i: nat) | SScanned(i: nat)
    | SSecond(i: nat) | SSecondHold(i: nat, o: Obj)
    | SGone

  /** Where the receiver is in `cxl_unwrap`. Linked: after R1. Unlinked: between R2 and R3. */
  datatype ReceiverPc = RIdle | RNonempty | RLoaded(o: Obj) | RLinked(o: Obj) | RUnlinking(o: Obj, arg: Obj)
      | RUnlinked(o: Obj)

  /** The receiver's life. Listed: the queue is in its list, its id not yet in the queue. */
  datatype ReceiverMode = RNone | RListed | RUp | RDown | RReplayed | RScan(i: nat) | RHold(i: nat, o: Obj)

  /** A side's newest record as far as the ring is concerned: none, as it is of another slot or the lines
      were wiped; or that slot i was set to o. The operation was closed, and the monitor takes it as
      committed: the word has the stamp, or whoever overwrote it has recorded the era. */
  datatype Log = NoLog | Logged(slot: nat, obj: Obj)

  /** The queue: `start`, `end` and the slots; `sent`, `recv` and `rel` (which send's reference was
      released from the ring, in order of release) only observe. */
  datatype Queue = Queue(start: nat, end: nat, buf: seq<Obj>, sent: seq<Obj>, recv: seq<Obj>, rel: seq<nat>)

  /** Shared besides the queue: `registered` (the receiver id is set) and the objects' counts. The field
      `ext`, the references held outside the ring, only observes. */
  datatype Ring = Ring(q: Queue, registered: bool, cnt: map<Obj, int>, ext: multiset<Obj>,
                       sp: SenderPc, sm: SenderMode, rp: ReceiverPc, rm: ReceiverMode, slog: Log, rlog: Log)

  predicate WellFormed(q: Queue) {
    q.start < MESSAGE_BUFFER_SIZE && q.end < MESSAGE_BUFFER_SIZE && |q.buf| == MESSAGE_BUFFER_SIZE
  }

  function Cnt(s: Ring, o: Obj): int {
    if o in s.cnt then s.cnt[o] else 0
  }

  function Inc(s: Ring, o: Obj): map<Obj, int> {
    s.cnt[o := Cnt(s, o) + 1]
  }

  function Dec(s: Ring, o: Obj): map<Obj, int> {
    s.cnt[o := Cnt(s, o) - 1]
  }

  function Succ(i: nat): (j: nat)
    ensures i < MESSAGE_BUFFER_SIZE ==> j == if i < MESSAGE_BUFFER_SIZE - 1 then i + 1 else 0
  {
    (i + 1) % MESSAGE_BUFFER_SIZE
  }

  /** The number of the send that slot i serves, counted from the one at `start`. */
  function Token(q: Queue, i: nat): (k: nat)
    requires i < MESSAGE_BUFFER_SIZE && q.start < MESSAGE_BUFFER_SIZE
    ensures |q.recv| <= k < |q.recv| + MESSAGE_BUFFER_SIZE
  {
    |q.recv| + (if i >= q.start then i - q.start else i + MESSAGE_BUFFER_SIZE - q.start)
  }

  /** Empty slot i. */
  function Take(q: Queue, i: nat): Queue
    requires WellFormed(q) && i < MESSAGE_BUFFER_SIZE
  {
    q.(buf := q.buf[i := 0], rel := q.rel + [Token(q, i)])
  }

  /** Replay a record. */
  function Replay(q: Queue, log: Log): Queue {
    if log.Logged? && log.slot < |q.buf| then q.(buf := q.buf[log.slot := log.obj]) else q
  }

  predicate SenderScanning(s: Ring) {
    !s.sm.SUp? && !s.sm.SDown? && !s.sm.SGone?
  }

  predicate SecondScan(s: Ring) {
    s.sm.SSecond? || s.sm.SSecondHold?
  }

  predicate ReceiverScanning(s: Ring) {
    s.rm.RReplayed? || s.rm.RScan? || s.rm.RHold?
  }

  // ----- everybody else

  /** Someone allocates the object or copies a reference to it. */
  function Acquire(s: Ring, o: Obj): Option<Ring> {
    if o == 0 then None else Some(s.(ext := s.ext + multiset{o}, cnt := Inc(s, o)))
  }

  function Drop(s: Ring, o: Obj): Option<Ring> {
    if s.ext[o] == 0 then None else Some(s.(ext := s.ext - multiset{o}, cnt := Dec(s, o)))
  }

  // ----- sent_to

  /** The caller lends one of its references for the duration of the call. */
  function BeginSend(s: Ring, o: Obj): Option<Ring> {
    if s.sm.SUp? && s.sp.SIdle? && o != 0 && s.ext[o] > 0
    then Some(s.(sp := SEntered(o), ext := s.ext - multiset{o})) else None
  }

  function EndSend(s: Ring, o: Obj): Ring {
    s.(sp := SIdle, ext := s.ext + multiset{o})
  }

  /** The two halves of the full test read `start` separately; indices are unsigned. */
  function Test1(s: Ring): Option<Ring> {
    if !(s.sm.SUp? && s.sp.SEntered?) then None
    else if s.q.end + 1 == s.q.start then Some(EndSend(s, s.sp.o))
    else Some(s.(sp := STested(s.sp.o)))
  }

  function Test2(s: Ring): Option<Ring> {
    if !(s.sm.SUp? && s.sp.STested?) then None
    else if s.q.end >= s.q.start && s.q.end - s.q.start == MESSAGE_BUFFER_SIZE - 1 then Some(EndSend(s, s.sp.o))
    else Some(s.(sp := SRoom(s.sp.o)))
  }

  function S1(s: Ring): Option<Ring> {
    if s.sm.SUp? && s.sp.SRoom? && s.q.end < |s.q.buf|
    then Some(s.(sp := SLinked(s.sp.o), q := s.q.(buf := s.q.buf[s.q.end := s.sp.o]), cnt := Inc(s, s.sp.o),
                 slog := Logged(s.q.end, s.sp.o)))
    else None
  }

  function S2(s: Ring): Option<Ring> {
    if s.sm.SUp? && s.sp.SLinked?
    then Some(EndSend(s, s.sp.o).(q := s.q.(end := Succ(s.q.end), sent := s.q.sent + [s.sp.o]))) else None
  }

  /** Another counted operation of the sender, or the slow path of an allocation, which wipes the lines. */
  function SOther(s: Ring): Option<Ring> {
    if s.sm.SUp? && s.sp.SIdle? then Some(s.(slog := NoLog)) else None
  }

  function SCrash(s: Ring): Option<Ring> {
    if s.sm.SUp? then Some(s.(sm := SDown)) else None
  }

  // ----- the monitor recovers the sender

  function SReplay(s: Ring): Option<Ring> {
    if !s.sm.SDown? || ReceiverScanning(s) then None
    else Some(s.(sm := SReplayed, q := Replay(s.q, s.slog)))
  }

  /** The lent reference is in a root slot of the sender, and those are released first. */
  function SBegin(s: Ring): Option<Ring> {
    if !s.sm.SReplayed? then None
    else Some(s.(sm := SFirst(s.q.end), cnt := if s.sp.SIdle? then s.cnt else Dec(s, s.sp.o)))
  }

  /** First scan, from `end` up to `start`: look at slot i. */
  function SLook(s: Ring): Option<Ring> {
    if !(s.sm.SFirst? && s.sm.i < |s.q.buf|) then None
    else if s.q.buf[s.sm.i] == 0 then Some(s.(sm := SNext(Succ(s.sm.i))))
    else Some(s.(sm := SFirstHold(s.sm.i, s.q.buf[s.sm.i])))
  }

  function SRelease(s: Ring): Option<Ring> {
    if s.sm.SFirstHold? && s.sm.i < MESSAGE_BUFFER_SIZE && WellFormed(s.q)
    then Some(s.(sm := SNext(Succ(s.sm.i)), q := Take(s.q, s.sm.i), cnt := Dec(s, s.sm.o)))
    else None
  }

  function SAgain(s: Ring): Option<Ring> {
    if !s.sm.SNext? then None
    else if s.sm.i != s.q.start then Some(s.(sm := SFirst(s.sm.i)))
    else Some(s.(sm := SScanned(s.sm.i)))
  }

  function SReadId(s: Ring): Option<Ring> {
    if !s.sm.SScanned? then None
    else if s.registered then Some(s.(sm := SGone))
    else Some(s.(sm := SSecond(s.sm.i)))
  }

  /** Second scan, from `start` up to `end`, made only if no receiver was registered. */
  function SLook2(s: Ring): Option<Ring> {
    if !(s.sm.SSecond? && s.sm.i < |s.q.buf|) then None
    else if s.sm.i == s.q.end then Some(s.(sm := SGone))
    else if s.q.buf[s.sm.i] == 0 then Some(s.(sm := SSecond(Succ(s.sm.i))))
    else Some(s.(sm := SSecondHold(s.sm.i, s.q.buf[s.sm.i])))
  }

  function SRelease2(s: Ring): Option<Ring> {
    if s.sm.SSecondHold? && s.sm.i < MESSAGE_BUFFER_SIZE && WellFormed(s.q)
    then Some(s.(sm := SSecond(Succ(s.sm.i)), q := Take(s.q, s.sm.i), cnt := Dec(s, s.sm.o)))
    else None
  }

  // ----- cxl_unwrap

  /** With `same` the new receiver has been given the id of the one before, and its redo lines. */
  function REnlist(s: Ring, same: bool): Option<Ring> {
    if s.rm.RNone? && !s.registered then Some(s.(rm := RListed, rlog := if same then s.rlog else NoLog)) else None
  }

  function RRegister(s: Ring): Option<Ring> {
    if s.rm.RListed? then Some(s.(rm := RUp, registered := true)) else None
  }

  function RTest(s: Ring): Option<Ring> {
    if !(s.rm.RUp? && s.rp.RIdle? && s.q.start < |s.q.buf|) then None
    else if s.q.start == s.q.end || s.q.buf[s.q.start] == 0 then Some(s)
    else Some(s.(rp := RNonempty))
  }

  function RLoad(s: Ring): Option<Ring> {
    if s.rm.RUp? && s.rp.RNonempty? && s.q.start < |s.q.buf| then Some(s.(rp := RLoaded(s.q.buf[s.q.start]))) else None
  }

  function R1(s: Ring): Option<Ring> {
    if s.rm.RUp? && s.rp.RLoaded? then Some(s.(rp := RLinked(s.rp.o), cnt := Inc(s, s.rp.o), rlog := NoLog)) else None
  }

  function RArg(s: Ring): Option<Ring> {
    if s.rm.RUp? && s.rp.RLinked? && s.q.start < |s.q.buf|
    then Some(s.(rp := RUnlinking(s.rp.o, s.q.buf[s.q.start]))) else None
  }

  function R2(s: Ring): Option<Ring> {
    if s.rm.RUp? && s.rp.RUnlinking? && WellFormed(s.q)
    then Some(s.(rp := RUnlinked(s.rp.o), q := Take(s.q, s.q.start), cnt := Dec(s, s.rp.arg),
                 rlog := Logged(s.q.start, 0)))
    else None
  }

  function R3(s: Ring): Option<Ring> {
    if s.rm.RUp? && s.rp.RUnlinked?
    then Some(s.(rp := RIdle, q := s.q.(start := Succ(s.q.start), recv := s.q.recv + [s.rp.o]),
                 ext := s.ext + multiset{s.rp.o}))
    else None
  }

  function ROther(s: Ring): Option<Ring> {
    if (s.rm.RUp? || s.rm.RListed?) && (s.rp.RIdle? || s.rp.RNonempty?) then Some(s.(rlog := NoLog)) else None
  }

  function RCrash(s: Ring): Option<Ring> {
    if s.rm.RUp? || s.rm.RListed? then Some(s.(rm := RDown)) else None
  }

  // ----- the monitor recovers the receiver

  predicate ReceiverHolds(s: Ring) {
    s.rp.RLinked? || s.rp.RUnlinking? || s.rp.RUnlinked?
  }

  function RReplay(s: Ring): Option<Ring> {
    if !s.rm.RDown? || SenderScanning(s) then None
    else Some(s.(rm := RReplayed, q := Replay(s.q, s.rlog)))
  }

  function RBegin(s: Ring): Option<Ring> {
    if !s.rm.RReplayed? then None
    else Some(s.(rm := RScan(s.q.start), rp := RIdle, cnt := if ReceiverHolds(s) then Dec(s, s.rp.o) else s.cnt))
  }

  function RLook(s: Ring): Option<Ring> {
    if !(s.rm.RScan? && s.rm.i < |s.q.buf|) then None
    else if s.rm.i == s.q.end then Some(s.(rm := RNone, registered := false))
    else if s.q.buf[s.rm.i] == 0 then Some(s.(rm := RScan(Succ(s.rm.i))))
    else Some(s.(rm := RHold(s.rm.i, s.q.buf[s.rm.i])))
  }

  function RRelease(s: Ring): Option<Ring> {
    if s.rm.RHold? && s.rm.i < MESSAGE_BUFFER_SIZE && WellFormed(s.q)
    then Some(s.(rm := RScan(Succ(s.rm.i)), q := Take(s.q, s.rm.i), cnt := Dec(s, s.rm.o)))
    else None
  }

  // ----- runs

  datatype Action =
    | DoAcquire(o: Obj) | DoDrop(o: Obj)
    | DoBeginSend(o: Obj) | DoTest1 | DoTest2 | DoS1 | DoS2 | DoSOther | DoSCrash
    | DoSReplay | DoSBegin | DoSLook | DoSRelease | DoSAgain | DoSReadId | DoSLook2 | DoSRelease2
    | DoREnlist(same: bool) | DoRRegister | DoRTest | DoRLoad | DoR1 | DoRArg | DoR2 | DoR3 | DoROther | DoRCrash
    | DoRReplay | DoRBegin | DoRLook | DoRRelease

  function Next(s: Ring, a: Action): Option<Ring> {
    match a
    case DoAcquire(o) => Acquire(s, o)
    case DoDrop(o) => Drop(s, o)
    case DoBeginSend(o) => BeginSend(s, o)
    case DoTest1 => Test1(s)
    case DoTest2 => Test2(s)
    case DoS1 => S1(s)
    case DoS2 => S2(s)
    case DoSOther => SOther(s)
    case DoSCrash => SCrash(s)
    case DoSReplay => SReplay(s)
    case DoSBegin => SBegin(s)
    case DoSLook => SLook(s)
    case DoSRelease => SRelease(s)
    case DoSAgain => SAgain(s)
    case DoSReadId => SReadId(s)
    case DoSLook2 => SLook2(s)
    case DoSRelease2 => SRelease2(s)
    case DoREnlist(same) => REnlist(s, same)
    case DoRRegister => RRegister(s)
    case DoRTest => RTest(s)
    case DoRLoad => RLoad(s)
    case DoR1 => R1(s)
    case DoRArg => RArg(s)
    case DoR2 => R2(s)
    case DoR3 => R3(s)
    case DoROther => ROther(s)
    case DoRCrash => RCrash(s)
    case DoRReplay => RReplay(s)
    case DoRBegin => RBegin(s)
    case DoRLook => RLook(s)
    case DoRRelease => RRelease(s)
  }

  function Zeros(n: nat): (s: seq<Obj>)
    ensures |s| == n && forall i :: 0 <= i < n ==> s[i] == 0
  {
    if n == 0 then [] else Zeros(n - 1) + [0]
  }

  const Empty := Ring(Queue(0, 0, Zeros(MESSAGE_BUFFER_SIZE), [], [], []), false, map[], multiset{},
                      SIdle, SUp, RIdle, RNone, NoLog, NoLog)

  /** A receive that starts while the monitor makes its second scan of the sender's queue. */
  predicate Racy(s: Ring, a: Action) {
    a.DoRTest? && SecondScan(s) && RTest(s).Some? && RTest(s).value.rp.RNonempty?
  }

  /** The sender's newest record says that its slot holds a reference, and the slot does not. */
  predicate Outdated(s: Ring) {
    s.slog.Logged? && s.slog.slot < |s.q.buf| && s.q.buf[s.slog.slot] != s.slog.obj
  }

  /** A replay that puts a reference back. */
  predicate PutsBack(s: Ring, a: Action) {
    a.DoSReplay? && SReplay(s).Some? && Outdated(s)
  }

  predicate Rough(s: Ring, a: Action) {
    Racy(s, a) || PutsBack(s, a)
  }

  /** The state after the steps, if each was possible. */
  function Final(s: Ring, run: seq<Action>): Option<Ring>
    decreases |run|
  {
    if run == [] then Some(s)
    else match Next(s, run[0])
      case None => None
      case Some(s') => Final(s', run[1..])
  }

  predicate Polite(s: Ring, run: seq<Action>)
    requires Final(s, run).Some?
    decreases |run|
  {
    run == [] || (!Rough(s, run[0]) && Polite(Next(s, run[0]).value, run[1..]))
  }
}

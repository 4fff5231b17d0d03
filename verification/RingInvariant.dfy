/** The invariant of the message ring. */
module RingInvariant {
  import opened RefTypes
  import opened RingMachine

  /** The reference that the sender has linked and not published, if any. */
  function Pending(sp: SenderPc): Obj {
    if sp.SLinked? then sp.o else 0
  }

  /** How many references were put into the ring. */
  function Linked(q: Queue, pending: Obj): nat {
    |q.sent| + if pending != 0 then 1 else 0
  }

  /** What the slot that serves send k holds: the reference, until it is released. */
  function Due(q: Queue, pending: Obj, k: nat): Obj {
    if k in q.rel then 0
    else if k < |q.sent| then q.sent[k]
    else if k == |q.sent| then pending
    else 0
  }

  /** What was received is a prefix of what was sent, and there is room for at most 15. */
  ghost predicate Geometry(q: Queue, pending: Obj) {
    && WellFormed(q)
    && |q.recv| <= |q.sent| && Linked(q, pending) <= |q.recv| + MESSAGE_BUFFER_SIZE - 1
    && Token(q, q.end) == |q.sent|
    && q.recv == q.sent[..|q.recv|]
    && 0 !in q.sent
  }

  ghost predicate Contents(q: Queue, pending: Obj)
    requires WellFormed(q)
  {
    forall i :: 0 <= i < MESSAGE_BUFFER_SIZE ==> q.buf[i] == Due(q, pending, Token(q, i))
  }

  ghost predicate ReleasedOnce(q: Queue, pending: Obj) {
    && (forall x, y :: 0 <= x < y < |q.rel| ==> q.rel[x] != q.rel[y])
    && (forall k :: k in q.rel ==> k < Linked(q, pending))
    && (forall k: nat :: k < |q.recv| ==> k in q.rel)
  }

  ghost predicate QueueOk(q: Queue, pending: Obj) {
    Geometry(q, pending) && Contents(q, pending) && ReleasedOnce(q, pending)
  }

  /** All references from `start` up to send k are released. */
  ghost predicate Cleared(q: Queue, k: nat) {
    forall j :: |q.recv| <= j < k ==> j in q.rel
  }

  /** Nothing is left in the slot at `end`. */
  ghost predicate Swept(q: Queue, pending: Obj) {
    pending != 0 ==> |q.sent| in q.rel
  }

  /** A scan of [start, end) has come to slot i. */
  ghost predicate Scanned(q: Queue, i: nat) {
    i < MESSAGE_BUFFER_SIZE && q.start < MESSAGE_BUFFER_SIZE && Token(q, i) <= |q.sent| && Cleared(q, Token(q, i))
  }

  ghost predicate Found(q: Queue, i: nat, o: Obj) {
    Scanned(q, i) && Token(q, i) < |q.sent| && Token(q, i) !in q.rel && o == q.sent[Token(q, i)]
  }

  /** Slot i is not in [start, end). */
  predicate Outside(q: Queue, i: nat) {
    i < MESSAGE_BUFFER_SIZE && q.start < MESSAGE_BUFFER_SIZE && Token(q, i) >= |q.sent|
  }

  ghost predicate SendOk(q: Queue, sp: SenderPc) {
    && (sp.STested? ==>
         |q.sent| - |q.recv| < MESSAGE_BUFFER_SIZE - 1 || (q.end == MESSAGE_BUFFER_SIZE - 1 && q.start == 0))
    && (sp.SRoom? ==> |q.sent| - |q.recv| < MESSAGE_BUFFER_SIZE - 1)
    && (!sp.SIdle? ==> sp.o != 0)
  }

  ghost predicate SenderOk(s: Ring) {
    match s.sm
    case SUp => Pending(s.sp) != 0 ==> |s.q.sent| !in s.q.rel
    case SDown => Pending(s.sp) != 0 ==> |s.q.sent| !in s.q.rel
    case SReplayed => Pending(s.sp) != 0 ==> |s.q.sent| !in s.q.rel
    case SFirst(i) => (i == s.q.end || Swept(s.q, Pending(s.sp))) && Outside(s.q, i)
    case SFirstHold(i, o) => i == s.q.end && o == Pending(s.sp) && o != 0 && |s.q.sent| !in s.q.rel
    case SNext(i) => Swept(s.q, Pending(s.sp)) && (i == s.q.start || Outside(s.q, i))
    case SScanned(i) => Swept(s.q, Pending(s.sp)) && (s.registered || i == s.q.start)
    case SSecond(i) => Swept(s.q, Pending(s.sp)) && s.rp.RIdle? && Scanned(s.q, i)
    case SSecondHold(i, o) => Swept(s.q, Pending(s.sp)) && s.rp.RIdle? && Found(s.q, i, o)
    case SGone => Swept(s.q, Pending(s.sp)) && (s.rm.RNone? ==> Cleared(s.q, |s.q.sent|))
  }

  ghost predicate ReceiveOk(q: Queue, rp: ReceiverPc) {
    && (!rp.RIdle? ==> |q.recv| < |q.sent| && (rp.RUnlinked? <==> |q.recv| in q.rel))
    && (!rp.RIdle? && !rp.RNonempty? ==> rp.o == q.sent[|q.recv|])
    && (rp.RUnlinking? ==> rp.arg == rp.o)
  }

  ghost predicate ReceiverOk(s: Ring) {
    match s.rm
    case RNone => !s.registered && s.rp.RIdle?
    case RListed => !s.registered && s.rp.RIdle?
    case RUp => s.registered
    case RDown => s.registered || s.rp.RIdle?
    case RReplayed => (s.registered || s.rp.RIdle?) && !SenderScanning(s)
    case RScan(i) => s.rp.RIdle? && !SenderScanning(s) && Scanned(s.q, i)
    case RHold(i, o) => s.rp.RIdle? && !SenderScanning(s) && Found(s.q, i, o)
  }

  /** The lent reference, while its owner is not recovered. */
  function LentCount(s: Ring, o: Obj): nat {
    if (s.sm.SUp? || s.sm.SDown? || s.sm.SReplayed?) && !s.sp.SIdle? && s.sp.o == o then 1 else 0
  }

  /** The reference the receiver has linked and not yet returned. */
  function TakenCount(s: Ring, o: Obj): nat {
    if ReceiverHolds(s) && s.rp.o == o then 1 else 0
  }

  /** Counts are exactly the references: in the ring, lent, taken, and elsewhere. */
  ghost predicate Counted(s: Ring) {
    forall o :: o != 0 ==> Cnt(s, o) == multiset(s.q.buf)[o] + s.ext[o] + LentCount(s, o) + TakenCount(s, o)
  }

  /** The sender's record is of the reference linked last. */
  predicate SenderLogOk(s: Ring) {
    (s.sm.SUp? || s.sm.SDown?) && s.slog.Logged? ==>
      && s.slog.slot < MESSAGE_BUFFER_SIZE && s.slog.obj != 0
      && if s.sp.SLinked? then s.slog == Logged(s.q.end, s.sp.o)
         else Succ(s.slog.slot) == s.q.end && |s.q.sent| > 0 && s.slog.obj == s.q.sent[|s.q.sent| - 1]
  }

  /** The receiver's record is of the reference released last: from the slot at `start`, which is still
      counted as queued, or from the one before. */
  ghost predicate ReceiverLogOk(s: Ring) {
    && (s.rp.RUnlinked? ==> s.rlog == Logged(s.q.start, 0))
    && (s.rlog.Logged? ==>
          && s.rlog.slot < MESSAGE_BUFFER_SIZE && s.rlog.obj == 0
          && ((s.rlog.slot == s.q.start && |s.q.recv| < |s.q.sent| && |s.q.recv| in s.q.rel)
             || Succ(s.rlog.slot) == s.q.start))
  }

  ghost predicate Inv(s: Ring) {
    && QueueOk(s.q, Pending(s.sp)) && SendOk(s.q, s.sp) && ReceiveOk(s.q, s.rp)
    && SenderOk(s) && ReceiverOk(s) && SenderLogOk(s) && ReceiverLogOk(s) && Counted(s)
  }

  lemma InitInv()
    ensures Inv(Empty)
  {
    hide Zeros;
    forall o: Obj | o != 0 ensures multiset(Empty.q.buf)[o] == 0 {
      assert o !in Empty.q.buf;
    }
  }
}

/** Every step of the message ring keeps its invariant. */
module RingSteps {
  import opened RefTypes
  import opened RingMachine
  import opened RingInvariant

  // ----- what the steps do to the queue

  /** A slot in [start, end) holds a reference exactly if that is not released yet. */
  lemma SlotInside(q: Queue, pending: Obj, i: nat)
    requires QueueOk(q, pending) && i < MESSAGE_BUFFER_SIZE && i != q.end && Token(q, i) <= |q.sent|
    ensures Token(q, i) < |q.sent|
    ensures q.buf[i] == 0 <==> Token(q, i) in q.rel
    ensures q.buf[i] != 0 ==> q.buf[i] == q.sent[Token(q, i)]
  {
  }

  /** Outside [start, end) only the slot at `end` may hold something. */
  lemma SlotOutside(q: Queue, pending: Obj, i: nat)
    requires QueueOk(q, pending) && Outside(q, i)
    ensures q.buf[i] == if i == q.end && |q.sent| !in q.rel then pending else 0
  {
  }

  lemma TakeKeeps(q: Queue, pending: Obj, i: nat)
    requires QueueOk(q, pending) && i < MESSAGE_BUFFER_SIZE && q.buf[i] != 0
    ensures QueueOk(Take(q, i), pending)
    ensures Token(q, i) !in q.rel && Token(q, i) in Take(q, i).rel
    ensures forall k :: k in q.rel ==> k in Take(q, i).rel
    ensures forall k :: k in Take(q, i).rel ==> k in q.rel || k == Token(q, i)
  {
  }

  lemma ScanGoesOn(q: Queue, pending: Obj, i: nat)
    requires QueueOk(q, pending) && Scanned(q, i) && i != q.end && Token(q, i) in q.rel
    ensures Scanned(q, Succ(i))
  {
  }

  lemma ScanEnds(q: Queue, pending: Obj)
    requires QueueOk(q, pending) && Scanned(q, q.end)
    ensures Cleared(q, |q.sent|)
  {
  }

  lemma TakeFound(q: Queue, pending: Obj, i: nat, o: Obj)
    requires QueueOk(q, pending) && Found(q, i, o)
    ensures q.buf[i] == o && o != 0 && QueueOk(Take(q, i), pending) && Scanned(Take(q, i), Succ(i))
    ensures Swept(q, pending) ==> Swept(Take(q, i), pending)
    ensures Token(q, i) != |q.sent|
    ensures forall k :: k in q.rel ==> k in Take(q, i).rel
    ensures forall k :: k in Take(q, i).rel ==> k in q.rel || k == Token(q, i)
  {
    hide QueueOk, Take;
    SlotFound(q, pending, i, o);
    TakeKeeps(q, pending, i);
    TakeShape(q, i);
    ScanGoesOn(Take(q, i), pending, i);
  }

  lemma SlotFound(q: Queue, pending: Obj, i: nat, o: Obj)
    requires QueueOk(q, pending) && Found(q, i, o)
    ensures WellFormed(q) && q.buf[i] == o && o != 0 && i != q.end
  {
  }

  lemma TakeShape(q: Queue, i: nat)
    requires WellFormed(q) && i < MESSAGE_BUFFER_SIZE
    ensures Take(q, i).start == q.start && Take(q, i).end == q.end && Take(q, i).sent == q.sent
            && Take(q, i).recv == q.recv
    ensures Take(q, i).rel == q.rel + [Token(q, i)]
  {
  }

  lemma LinkKeeps(q: Queue, o: Obj)
    requires QueueOk(q, 0) && o != 0 && |q.sent| - |q.recv| < MESSAGE_BUFFER_SIZE - 1
    ensures q.buf[q.end] == 0 && |q.sent| !in q.rel
    ensures QueueOk(q.(buf := q.buf[q.end := o]), o)
  {
  }

  function Publish(q: Queue, o: Obj): Queue {
    q.(end := Succ(q.end), sent := q.sent + [o])
  }

  lemma PublishKeeps(q: Queue, o: Obj)
    requires QueueOk(q, o) && o != 0 && |q.sent| !in q.rel
    ensures QueueOk(Publish(q, o), 0)
    ensures forall i :: Scanned(q, i) ==> Scanned(Publish(q, o), i)
    ensures forall i, p :: Found(q, i, p) ==> Found(Publish(q, o), i, p)
  {
    var q' := Publish(q, o);
    assert q'.recv == q'.sent[..|q'.recv|];
    assert Geometry(q', 0);
    assert Contents(q', 0) by {
      forall i | 0 <= i < MESSAGE_BUFFER_SIZE ensures q'.buf[i] == Due(q', 0, Token(q', i)) {
        assert q.buf[i] == Due(q, o, Token(q, i));
      }
    }
  }

  function Advance(q: Queue): Queue
    requires |q.recv| < |q.sent|
  {
    q.(start := Succ(q.start), recv := q.recv + [q.sent[|q.recv|]])
  }

  lemma AdvanceKeeps(q: Queue, pending: Obj)
    requires QueueOk(q, pending) && |q.recv| < |q.sent| && |q.recv| in q.rel
    ensures QueueOk(Advance(q), pending)
    ensures forall i :: Outside(q, i) || i == q.start ==> Outside(Advance(q), i)
    ensures forall k :: Cleared(q, k) ==> Cleared(Advance(q), k)
  {
    var q' := Advance(q);
    assert q'.recv == q'.sent[..|q'.recv|];
    assert Geometry(q', pending);
    assert Contents(q', pending) by {
      forall i | 0 <= i < MESSAGE_BUFFER_SIZE ensures q'.buf[i] == Due(q', pending, Token(q', i)) {
        assert q.buf[i] == Due(q, pending, Token(q, i));
      }
    }
  }

  // ----- everybody else, and sent_to

  lemma KeepAcquire(s: Ring, o: Obj)
    requires Inv(s) && Acquire(s, o).Some?
    ensures Inv(Acquire(s, o).value)
  {
    hide QueueOk, SendOk, ReceiveOk, Cleared, Swept, Scanned, Found, Outside;
  }

  lemma KeepDrop(s: Ring, o: Obj)
    requires Inv(s) && Drop(s, o).Some?
    ensures Inv(Drop(s, o).value)
  {
    hide QueueOk, SendOk, ReceiveOk, Cleared, Swept, Scanned, Found, Outside;
  }

  lemma KeepBeginSend(s: Ring, o: Obj)
    requires Inv(s) && BeginSend(s, o).Some?
    ensures Inv(BeginSend(s, o).value)
  {
    hide QueueOk, ReceiveOk, Cleared, Swept, Scanned, Found, Outside;
  }

  /** The two halves of the full test. */
  lemma RoomTest(q: Queue, pending: Obj)
    requires Geometry(q, pending)
    ensures WellFormed(q) && |q.recv| <= |q.sent| <= |q.recv| + MESSAGE_BUFFER_SIZE - 1
    ensures |q.sent| - |q.recv| == MESSAGE_BUFFER_SIZE - 1 <==>
              q.end + 1 == q.start || (q.end >= q.start && q.end - q.start == MESSAGE_BUFFER_SIZE - 1)
  {
  }

  lemma KeepTest1(s: Ring)
    requires Inv(s) && Test1(s).Some?
    ensures Inv(Test1(s).value)
  {
    hide Contents, ReleasedOnce, ReceiveOk, Cleared, Swept, Scanned, Found, Outside, Geometry;
    RoomTest(s.q, Pending(s.sp));
  }

  lemma KeepTest2(s: Ring)
    requires Inv(s) && Test2(s).Some?
    ensures Inv(Test2(s).value)
  {
    hide Contents, ReleasedOnce, ReceiveOk, Cleared, Swept, Scanned, Found, Outside, Geometry;
    RoomTest(s.q, Pending(s.sp));
  }

  lemma KeepS1(s: Ring)
    requires Inv(s) && S1(s).Some?
    ensures Inv(S1(s).value)
  {
    hide QueueOk;
    EndSlot(s.q, 0);
    LinkKeeps(s.q, s.sp.o);
  }

  lemma KeepS2(s: Ring)
    requires Inv(s) && S2(s).Some?
    ensures Inv(S2(s).value)
  {
    hide QueueOk, Scanned, Found;
    PublishKeeps(s.q, s.sp.o);
  }

  lemma KeepSOther(s: Ring)
    requires Inv(s) && SOther(s).Some?
    ensures Inv(SOther(s).value)
  {
    hide QueueOk, SendOk, Swept, Outside, Cleared, Scanned, Found;
  }

  lemma KeepSCrash(s: Ring)
    requires Inv(s) && SCrash(s).Some?
    ensures Inv(SCrash(s).value)
  {
    hide QueueOk;
  }

  // ----- recovery of the sender

  /** Replaying a record that is not outdated changes nothing. */
  lemma KeepSReplay(s: Ring)
    requires Inv(s) && SReplay(s).Some? && !Outdated(s)
    ensures SReplay(s).value == s.(sm := SReplayed) && Inv(SReplay(s).value)
  {
    hide QueueOk, SendOk, ReceiveOk, Swept, Outside, Cleared, Scanned, Found;
    EndSlot(s.q, Pending(s.sp));
    if s.slog.Logged? {
      assert s.q.buf[s.slog.slot := s.slog.obj] == s.q.buf;
    }
  }

  lemma KeepSBegin(s: Ring)
    requires Inv(s) && SBegin(s).Some?
    ensures Inv(SBegin(s).value)
  {
    hide Contents, ReleasedOnce;
  }

  lemma KeepSLook(s: Ring)
    requires Inv(s) && SLook(s).Some?
    ensures Inv(SLook(s).value)
  {
    hide Contents, ReleasedOnce, QueueOk;
    SlotOutside(s.q, Pending(s.sp), s.sm.i);
    LookOn(s.q, Pending(s.sp), s.sm.i);
  }

  /** From a slot outside [start, end) the scan goes to the next one outside or to `start`. */
  lemma LookOn(q: Queue, pending: Obj, i: nat)
    requires QueueOk(q, pending) && Outside(q, i)
    ensures Succ(i) == q.start || Outside(q, Succ(i))
    ensures i == q.end && |q.sent| in q.rel ==> Swept(q, pending)
  {
  }

  lemma KeepSRelease(s: Ring)
    requires Inv(s) && SRelease(s).Some?
    ensures Inv(SRelease(s).value)
  {
    hide Contents, ReleasedOnce, QueueOk, Take;
    var q, pending := s.q, Pending(s.sp);
    EndSlot(q, pending);
    SlotOutside(q, pending, s.sm.i);
    TakeKeeps(q, pending, s.sm.i);
    TakeShape(q, s.sm.i);
    LookOn(Take(q, s.sm.i), pending, s.sm.i);
    CountTaken(s, q.end);
  }

  lemma EndSlot(q: Queue, pending: Obj)
    requires QueueOk(q, pending)
    ensures WellFormed(q) && Outside(q, q.end) && Token(q, q.end) == |q.sent|
  {
  }

  lemma CountTaken(s: Ring, i: nat)
    requires WellFormed(s.q) && i < MESSAGE_BUFFER_SIZE && s.q.buf[i] != 0
    ensures forall o :: o != 0 ==>
              multiset(Take(s.q, i).buf)[o] == multiset(s.q.buf)[o] - if o == s.q.buf[i] then 1 else 0
  {
  }

  lemma KeepSAgain(s: Ring)
    requires Inv(s) && SAgain(s).Some?
    ensures Inv(SAgain(s).value)
  {
    hide Contents, ReleasedOnce, ReceiveOk, SendOk, Found, Scanned, Cleared;
  }

  lemma KeepSReadId(s: Ring)
    requires Inv(s) && SReadId(s).Some?
    ensures Inv(SReadId(s).value)
  {
    hide Contents, ReleasedOnce, ReceiveOk, SendOk;
  }

  lemma KeepSLook2(s: Ring)
    requires Inv(s) && SLook2(s).Some?
    ensures Inv(SLook2(s).value)
  {
    hide QueueOk, ReceiveOk, SendOk, Swept, Outside, Cleared;
    var q, pending := s.q, Pending(s.sp);
    if s.sm.i == q.end {
      ScanEnds(q, pending);
    } else {
      SlotInside(q, pending, s.sm.i);
      if q.buf[s.sm.i] == 0 {
        ScanGoesOn(q, pending, s.sm.i);
      }
    }
  }

  lemma KeepSRelease2(s: Ring)
    requires Inv(s) && SRelease2(s).Some?
    ensures Inv(SRelease2(s).value)
  {
    hide QueueOk, Swept, Outside, Cleared, Scanned, Found, Take;
    TakeFound(s.q, Pending(s.sp), s.sm.i, s.sm.o);
    TakeShape(s.q, s.sm.i);
    CountTaken(s, s.sm.i);
  }

  // ----- cxl_unwrap

  lemma KeepREnlist(s: Ring, same: bool)
    requires Inv(s) && REnlist(s, same).Some?
    ensures Inv(REnlist(s, same).value)
  {
    hide QueueOk, SendOk, Swept, Outside, Cleared, Scanned, Found;
  }

  lemma KeepRRegister(s: Ring)
    requires Inv(s) && RRegister(s).Some?
    ensures Inv(RRegister(s).value)
  {
    hide QueueOk, SendOk, Swept, Outside, Cleared, Scanned, Found;
  }

  lemma KeepRTest(s: Ring)
    requires Inv(s) && RTest(s).Some? && !Racy(s, DoRTest)
    ensures Inv(RTest(s).value)
  {
    hide QueueOk, SendOk, Swept, Outside, Cleared, Scanned, Found;
    StartSlot(s.q, Pending(s.sp));
  }

  lemma StartSlot(q: Queue, pending: Obj)
    requires QueueOk(q, pending)
    ensures WellFormed(q) && |q.recv| <= |q.sent| <= |q.recv| + MESSAGE_BUFFER_SIZE - 1
    ensures q.start != q.end <==> |q.recv| < |q.sent|
    ensures q.start != q.end ==> q.buf[q.start] == if |q.recv| in q.rel then 0 else q.sent[|q.recv|]
    ensures q.start != q.end && |q.recv| !in q.rel ==> q.sent[|q.recv|] != 0
  {
  }

  lemma KeepRLoad(s: Ring)
    requires Inv(s) && RLoad(s).Some?
    ensures Inv(RLoad(s).value)
  {
    hide QueueOk, SendOk, Swept, Outside, Cleared, Scanned, Found;
    StartSlot(s.q, Pending(s.sp));
  }

  lemma KeepR1(s: Ring)
    requires Inv(s) && R1(s).Some?
    ensures Inv(R1(s).value)
  {
    hide QueueOk, SendOk, Swept, Outside, Cleared, Scanned, Found;
  }

  lemma KeepRArg(s: Ring)
    requires Inv(s) && RArg(s).Some?
    ensures Inv(RArg(s).value)
  {
    hide QueueOk, SendOk, Swept, Outside, Cleared, Scanned, Found;
    StartSlot(s.q, Pending(s.sp));
  }

  lemma KeepR2(s: Ring)
    requires Inv(s) && R2(s).Some?
    ensures Inv(R2(s).value)
  {
    hide QueueOk, Take, Cleared;
    StartSlot(s.q, Pending(s.sp));
    TakeKeeps(s.q, Pending(s.sp), s.q.start);
    TakeShape(s.q, s.q.start);
    CountTaken(s, s.q.start);
    if s.sm.SGone? && s.rm.RNone? {
      assert false;
    }
  }

  lemma KeepR3(s: Ring)
    requires Inv(s) && R3(s).Some?
    ensures Inv(R3(s).value)
  {
    hide QueueOk, Cleared, Scanned, Found, Outside;
    StartSlot(s.q, Pending(s.sp));
    AdvanceKeeps(s.q, Pending(s.sp));
    assert R3(s).value.q == Advance(s.q);
  }

  lemma KeepROther(s: Ring)
    requires Inv(s) && ROther(s).Some?
    ensures Inv(ROther(s).value)
  {
    hide QueueOk, SendOk, Swept, Outside, Cleared, Scanned, Found;
  }

  lemma KeepRCrash(s: Ring)
    requires Inv(s) && RCrash(s).Some?
    ensures Inv(RCrash(s).value)
  {
    hide QueueOk, SendOk, Swept, Outside, Cleared, Scanned, Found;
  }

  // ----- recovery of the receiver

  /** The slot of the receiver's record has stayed empty: the sender does not reach it before the receiver has
      released the next one. So the replay changes nothing. */
  lemma RecordedEmpty(s: Ring)
    requires Inv(s) && s.rlog.Logged?
    ensures s.rlog.slot < |s.q.buf| && s.q.buf[s.rlog.slot] == 0
  {
    hide Counted, SenderOk, ReceiverOk;
    assert Contents(s.q, Pending(s.sp));
  }

  lemma KeepRReplay(s: Ring)
    requires Inv(s) && RReplay(s).Some?
    ensures RReplay(s).value == s.(rm := RReplayed) && Inv(RReplay(s).value)
  {
    hide QueueOk, SendOk, ReceiveOk, Swept, Outside, Cleared, Scanned, Found;
    if s.rlog.Logged? {
      RecordedEmpty(s);
      assert s.q.buf[s.rlog.slot := 0] == s.q.buf;
    }
  }

  lemma KeepRBegin(s: Ring)
    requires Inv(s) && RBegin(s).Some?
    ensures Inv(RBegin(s).value)
  {
    hide Contents, ReleasedOnce, SendOk, Swept, Outside;
  }

  lemma KeepRLook(s: Ring)
    requires Inv(s) && RLook(s).Some?
    ensures Inv(RLook(s).value)
  {
    hide QueueOk, ReceiveOk, SendOk, Swept, Outside, Cleared;
    var q, pending := s.q, Pending(s.sp);
    if s.rm.i == q.end {
      ScanEnds(q, pending);
    } else {
      SlotInside(q, pending, s.rm.i);
      if q.buf[s.rm.i] == 0 {
        ScanGoesOn(q, pending, s.rm.i);
      }
    }
  }

  lemma KeepRRelease(s: Ring)
    requires Inv(s) && RRelease(s).Some?
    ensures Inv(RRelease(s).value)
  {
    hide QueueOk, Swept, Outside, Cleared, Scanned, Found, Take;
    TakeFound(s.q, Pending(s.sp), s.rm.i, s.rm.o);
    TakeShape(s.q, s.rm.i);
    CountTaken(s, s.rm.i);
  }
}

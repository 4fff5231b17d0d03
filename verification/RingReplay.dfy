/** What the replay of the sender's newest record does to the ring when the reference it is of has left it. */
module RingReplay {
  import opened RefTypes
  import opened RingMachine
  import opened RingInvariant
  import opened RingSteps
  import opened RingTheorems

  // ----- when the record is outdated

  /** Queued references are released from `start` on, without gaps, and nothing queued behind a reference
      being received is released. */
  ghost predicate Ordered(q: Queue, idle: bool) {
    && (forall j, k :: |q.recv| <= j <= k < |q.sent| && k in q.rel ==> j in q.rel)
    && (!idle ==> forall k :: |q.recv| < k < |q.sent| ==> k !in q.rel)
  }

  /** The monitor has not come to either side. */
  predicate Alone(s: Ring) {
    (s.sm.SUp? || s.sm.SDown?) && !ReceiverScanning(s)
  }

  ghost predicate InOrder(s: Ring) {
    Alone(s) ==> Ordered(s.q, s.rp.RIdle?)
  }

  lemma OrderedSame(q: Queue, q': Queue, idle: bool)
    requires Ordered(q, idle) && q'.sent == q.sent && q'.recv == q.recv && q'.rel == q.rel
    ensures Ordered(q', idle)
  {
  }

  lemma OrderedSend(q: Queue, q': Queue, o: Obj, idle: bool)
    requires Ordered(q, idle) && |q.sent| !in q.rel
    requires q'.sent == q.sent + [o] && q'.recv == q.recv && q'.rel == q.rel
    ensures Ordered(q', idle)
  {
  }

  lemma OrderedStart(q: Queue)
    requires Ordered(q, true) && |q.recv| !in q.rel
    ensures Ordered(q, false)
  {
  }

  lemma OrderedTake(q: Queue, q': Queue)
    requires Ordered(q, false) && q'.sent == q.sent && q'.recv == q.recv && q'.rel == q.rel + [|q.recv|]
    ensures Ordered(q', false)
  {
  }

  lemma OrderedNext(q: Queue, q': Queue, o: Obj)
    requires Ordered(q, false) && q'.sent == q.sent && q'.recv == q.recv + [o] && q'.rel == q.rel
    ensures Ordered(q', true)
  {
  }

  /** The steps that matter for the order. */
  predicate Moves(a: Action) {
    a.DoS2? || a.DoRTest? || a.DoR2? || a.DoR3? || a.DoRLook? || a.DoRBegin?
  }

  lemma OtherStep(s: Ring, a: Action)
    requires Next(s, a).Some? && !Moves(a)
    ensures var t := Next(s, a).value;
            Alone(t) ==>
              && Alone(s) && t.q.sent == s.q.sent && t.q.recv == s.q.recv && t.q.rel == s.q.rel
              && t.rp.RIdle? == s.rp.RIdle?
  {
  }

  lemma InOrderKept(s: Ring, a: Action)
    requires Inv(s) && InOrder(s) && Next(s, a).Some?
    ensures InOrder(Next(s, a).value)
  {
    hide Ordered;
    var t := Next(s, a).value;
    if !Moves(a) {
      hide Inv, Next;
      OtherStep(s, a);
      if Alone(t) {
        OrderedSame(s.q, t.q, s.rp.RIdle?);
      }
    } else if Alone(t) {
      MoveInOrder(s, a);
    }
  }

  lemma MoveInOrder(s: Ring, a: Action)
    requires Inv(s) && InOrder(s) && Next(s, a).Some? && Moves(a) && Alone(Next(s, a).value)
    ensures InOrder(Next(s, a).value)
  {
    hide Ordered, QueueOk, Counted, Cleared;
    StartSlot(s.q, Pending(s.sp));
    var q, q' := s.q, Next(s, a).value.q;
    match a
    case DoS2 => OrderedSend(q, q', s.sp.o, s.rp.RIdle?);
    case DoRTest =>
      if s.q.start != s.q.end && s.q.buf[s.q.start] != 0 {
        OrderedStart(q);
      }
    case DoR2 =>
      TakeShape(q, q.start);
      assert Token(q, q.start) == |q.recv|;
      OrderedTake(q, q');
    case DoR3 => OrderedNext(q, q', s.rp.o);
    case DoRLook =>
      ScanEnds(q, Pending(s.sp));
      AllOrdered(q);
    case DoRBegin =>
  }

  lemma AllOrdered(q: Queue)
    requires Cleared(q, |q.sent|)
    ensures Ordered(q, true)
  {
  }

  lemma {:induction false} RunInOrder(s: Ring, run: seq<Action>)
    requires Inv(s) && InOrder(s) && Final(s, run).Some? && Polite(s, run)
    ensures InOrder(Final(s, run).value)
    decreases |run|
  {
    hide Inv, Next, Rough, InOrder;
    if run != [] {
      Keep(s, run[0]);
      InOrderKept(s, run[0]);
      RunInOrder(Next(s, run[0]).value, run[1..]);
    }
  }

  lemma ReachedInOrder(run: seq<Action>)
    requires Run(run)
    ensures InOrder(Reached(run))
  {
    hide Inv;
    InitInv();
    RunInOrder(Empty, run);
  }

  /** An outdated record is of the reference sent last, and the ring is empty: that reference and all before
      it were received, or are up to their last step, or were released when a receiver was recovered. */
  lemma WhenOutdated(s: Ring)
    requires Inv(s) && InOrder(s) && Alone(s) && s.slog.Logged?
    ensures WellFormed(s.q) && s.slog.slot < MESSAGE_BUFFER_SIZE && s.slog.obj != 0
    ensures Outdated(s) <==> !s.sp.SLinked? && |s.q.sent| - 1 in s.q.rel
    ensures Outdated(s) ==>
              && Succ(s.slog.slot) == s.q.end && (forall j :: 0 <= j < MESSAGE_BUFFER_SIZE ==> s.q.buf[j] == 0)
              && (s.q.start == s.q.end ==> s.rp.RIdle?)
              && (s.q.start != s.q.end && !s.rp.RIdle? ==> s.rp.RUnlinked? && s.q.start == s.slog.slot)
  {
    hide Counted, ReceiverLogOk, Found, Scanned;
    var q, pending, i := s.q, Pending(s.sp), s.slog.slot;
    assert q.buf[i] == Due(q, pending, Token(q, i));
    if Outdated(s) {
      assert |q.sent| - 1 in q.rel;
      forall j | 0 <= j < MESSAGE_BUFFER_SIZE ensures q.buf[j] == 0 {
        assert q.buf[j] == Due(q, pending, Token(q, j));
      }
    }
  }

  // ----- the counts

  /** The record of the last reference sent is outdated exactly if that reference was released from the ring,
      and then its replay, and only then, puts into a slot a reference that no count is kept for. */
  lemma ReplayExact(run: seq<Action>)
    requires Run(run) && SReplay(Reached(run)).Some?
    ensures var s := Reached(run);
            var t := SReplay(s).value;
            && (Counted(t) <==> !Outdated(s))
            && (Outdated(s) <==> s.slog.Logged? && !s.sp.SLinked? && |s.q.sent| - 1 in s.q.rel)
            && (Outdated(s) ==>
                  && Stray(t, s.slog.slot, s.slog.obj)
                  && (s.q.start == s.q.end ==> s.rp.RIdle?)
                  && (s.q.start != s.q.end && !s.rp.RIdle? ==> s.rp.RUnlinked? && s.q.start == s.slog.slot))
  {
    ReachedInv(run);
    ReachedInOrder(run);
    var s := Reached(run);
    hide InOrder, QueueOk, SendOk, ReceiveOk, SenderOk, ReceiverOk;
    if s.slog.Logged? {
      WhenOutdated(s);
    }
    if Outdated(s) {
      PutBack(s);
    } else {
      KeepSReplay(s);
    }
  }

  /** Slot i alone holds a reference, and the object's count does not include it. */
  ghost predicate Stray(s: Ring, i: nat, o: Obj) {
    && WellFormed(s.q) && i < MESSAGE_BUFFER_SIZE && Succ(i) == s.q.end && o != 0 && s.q.buf[i] == o
    && (forall j :: 0 <= j < MESSAGE_BUFFER_SIZE && j != i ==> s.q.buf[j] == 0)
    && Cnt(s, o) == s.ext[o] + LentCount(s, o) + TakenCount(s, o)
  }

  lemma PutBack(s: Ring)
    requires Counted(s) && SReplay(s).Some? && Outdated(s) && WellFormed(s.q) && s.slog.obj != 0
    requires Succ(s.slog.slot) == s.q.end && forall j :: 0 <= j < MESSAGE_BUFFER_SIZE ==> s.q.buf[j] == 0
    ensures Stray(SReplay(s).value, s.slog.slot, s.slog.obj) && !Counted(SReplay(s).value)
  {
    var t, o := SReplay(s).value, s.slog.obj;
    assert o !in s.q.buf;
    assert t.q.buf[s.slog.slot] == o;
    assert o in multiset(t.q.buf);
  }

  /** The receiver's record is never outdated: the sender does not reach the slot that the receiver emptied last
      before the receiver empties the next one. */
  lemma UnlinkReplayHarmless(run: seq<Action>)
    requires Run(run) && RReplay(Reached(run)).Some?
    ensures RReplay(Reached(run)).value == Reached(run).(rm := RReplayed)
  {
    ReachedInv(run);
    KeepRReplay(Reached(run));
  }
}

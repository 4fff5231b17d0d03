/** When anything can still be received after the monitor recovered a receiver. */
module RingDelivery {
  import opened RefTypes
  import opened RingMachine
  import opened RingInvariant
  import opened RingSteps
  import opened RingTheorems

  /** The sender is gone or stopped and nothing is queued: no step delivers anything. */
  ghost predicate Silent(s: Ring) {
    !s.sm.SUp? && s.q.start == s.q.end && s.rp.RIdle?
  }

  lemma SilentKept(s: Ring, a: Action)
    requires Silent(s) && Next(s, a).Some?
    ensures Silent(Next(s, a).value) && Next(s, a).value.q.recv == s.q.recv
  {
  }

  lemma {:induction false} SilentForever(s: Ring, run: seq<Action>)
    requires Silent(s) && Final(s, run).Some?
    ensures Final(s, run).value.q.recv == s.q.recv
    decreases |run|
  {
    hide Silent, Next;
    if run != [] {
      SilentKept(s, run[0]);
      SilentForever(Next(s, run[0]).value, run[1..]);
    }
  }

  // ----- the sender finishes a send

  /** Nothing is queued and the sender runs; the monitor has scanned the receiver's queue. */
  ghost predicate Waiting(s: Ring) {
    && Inv(s) && s.sm.SUp? && s.q.start == s.q.end && s.rp.RIdle? && s.rm.RScan? && s.rm.i == s.q.end
  }

  lemma WaitingStep(s: Ring, a: Action)
    requires Waiting(s) && Next(s, a).Some? && (a.DoAcquire? || a.DoBeginSend? || a.DoTest1? || a.DoTest2? || a.DoS1?)
    ensures Waiting(Next(s, a).value) && !Rough(s, a)
  {
    Keep(s, a);
    hide Inv;
  }

  /** The last steps of a send: nothing is queued, so the ring is not full. */
  lemma FromRoom(s0: Ring, s: Ring) returns (t: Ring)
    requires Leads(s0, s) && Waiting(s) && (s.sp.SRoom? || s.sp.SLinked?)
    ensures Leads(s0, t) && Waiting(t) && t.sp.SLinked? && t.q.recv == s.q.recv
  {
    t := s;
    if s.sp.SRoom? {
      hide Leads;
      assert S1(s).Some?;
      WaitingStep(s, DoS1);
      Onward(s0, s, DoS1);
      t := S1(s).value;
    }
  }

  lemma FromTested(s0: Ring, s: Ring) returns (t: Ring)
    requires Leads(s0, s) && Waiting(s) && s.sp.STested?
    ensures Leads(s0, t) && Waiting(t) && t.sp.SLinked? && t.q.recv == s.q.recv
  {
    hide Leads;
    assert Test2(s) == Some(s.(sp := SRoom(s.sp.o)));
    WaitingStep(s, DoTest2);
    Onward(s0, s, DoTest2);
    t := FromRoom(s0, Test2(s).value);
  }

  lemma FromEntered(s0: Ring, s: Ring) returns (t: Ring)
    requires Leads(s0, s) && Waiting(s) && s.sp.SEntered?
    ensures Leads(s0, t) && Waiting(t) && t.sp.SLinked? && t.q.recv == s.q.recv
  {
    hide Leads;
    assert Test1(s) == Some(s.(sp := STested(s.sp.o)));
    WaitingStep(s, DoTest1);
    Onward(s0, s, DoTest1);
    t := FromTested(s0, Test1(s).value);
  }

  lemma FromIdle(s0: Ring, s: Ring) returns (t: Ring)
    requires Leads(s0, s) && Waiting(s) && s.sp.SIdle?
    ensures Leads(s0, t) && Waiting(t) && t.sp.SLinked? && t.q.recv == s.q.recv
  {
    hide Leads;
    WaitingStep(s, DoAcquire(1));
    Onward(s0, s, DoAcquire(1));
    var a := Acquire(s, 1).value;
    WaitingStep(a, DoBeginSend(1));
    Onward(s0, a, DoBeginSend(1));
    t := FromEntered(s0, BeginSend(a, 1).value);
  }

  /** Wherever the sender is, it can link a reference. */
  lemma LinkOne(s: Ring) returns (t: Ring)
    requires Waiting(s)
    ensures Leads(s, t) && Waiting(t) && t.sp.SLinked? && t.q.recv == s.q.recv
  {
    hide Leads, Waiting;
    Here(s);
    match s.sp
    case SIdle => t := FromIdle(s, s);
    case SEntered(_) => t := FromEntered(s, s);
    case STested(_) => t := FromTested(s, s);
    case SRoom(_) => t := FromRoom(s, s);
    case SLinked(_) => t := FromRoom(s, s);
  }

  // ----- and a new receiver receives

  /** The monitor finishes, a receiver registers, and nothing else happens. */
  lemma Register(s0: Ring, s: Ring) returns (t: Ring)
    requires Leads(s0, s) && Waiting(s) && s.sp.SLinked?
    ensures Leads(s0, t) && Inv(t) && t.sm.SUp? && t.q == s.q && t.sp == s.sp && t.rp.RIdle? && t.rm.RUp?
  {
    hide Leads, QueueOk;
    WaitingShape(s);
    Keep(s, DoRLook);
    Onward(s0, s, DoRLook);
    var a := RLook(s).value;
    Keep(a, DoREnlist(false));
    Onward(s0, a, DoREnlist(false));
    var b := REnlist(a, false).value;
    Keep(b, DoRRegister);
    Onward(s0, b, DoRRegister);
    t := RRegister(b).value;
  }

  lemma WaitingShape(s: Ring)
    requires Waiting(s)
    ensures |s.q.buf| == MESSAGE_BUFFER_SIZE && s.rm.i < |s.q.buf|
  {
  }

  /** The reference is published. */
  lemma PublishOne(s0: Ring, s: Ring) returns (t: Ring)
    requires Leads(s0, s) && Inv(s) && s.sm.SUp? && s.sp.SLinked? && s.q.start == s.q.end && s.rp.RIdle? && s.rm.RUp?
    ensures Leads(s0, t) && WellFormed(t.q) && t.sm.SUp? && t.q.start != t.q.end && t.q.buf[t.q.start] != 0
    ensures t.rp.RIdle? && t.rm.RUp? && t.q.recv == s.q.recv
  {
    hide Leads;
    Keep(s, DoS2);
    Onward(s0, s, DoS2);
    t := S2(s).value;
    StartSlot(s.q, Pending(s.sp));
    EndSlot(s.q, Pending(s.sp));
    SlotOutside(s.q, Pending(s.sp), s.q.end);
    StartSlot(t.q, Pending(t.sp));
  }

  lemma TakeOne(s0: Ring, s: Ring) returns (t: Ring)
    requires Leads(s0, s) && WellFormed(s.q) && !SecondScan(s) && s.q.start != s.q.end && s.q.buf[s.q.start] != 0
    requires s.rp.RIdle? && s.rm.RUp?
    ensures Leads(s0, t) && t.q == s.q && t.rm.RUp? && t.rp.RLinked?
  {
    hide Leads;
    Onward(s0, s, DoRTest);
    var a := RTest(s).value;
    Onward(s0, a, DoRLoad);
    var b := RLoad(a).value;
    Onward(s0, b, DoR1);
    t := R1(b).value;
  }

  lemma ReceiveOne(s0: Ring, s: Ring) returns (t: Ring)
    requires Leads(s0, s) && WellFormed(s.q) && s.rm.RUp? && s.rp.RLinked?
    ensures Leads(s0, t) && |t.q.recv| == |s.q.recv| + 1
  {
    hide Leads;
    Onward(s0, s, DoRArg);
    var d := RArg(s).value;
    Onward(s0, d, DoR2);
    var e := R2(d).value;
    Onward(s0, e, DoR3);
    t := R3(e).value;
  }

  ghost predicate Delivers(s: Ring, more: seq<Action>) {
    Final(s, more).Some? && |Final(s, more).value.q.recv| > |s.q.recv|
  }

  lemma CanDeliver(s: Ring) returns (more: seq<Action>)
    requires Waiting(s)
    ensures Delivers(s, more) && Polite(s, more)
  {
    var t := LinkOne(s);
    var r;
    {
      hide Leads;
      r := Register(s, t);
      r := PublishOne(s, r);
      r := TakeOne(s, r);
      r := ReceiveOne(s, r);
    }
    more :| Final(s, more).Some? && Polite(s, more) && Final(s, more).value == r;
  }

  // ----- the sender's record fills the slot again

  /** The sender stops, and the replay of its record puts its last reference back into the slot at `start`. */
  lemma Refill(s: Ring) returns (u: Ring, run: seq<Action>)
    requires Inv(s) && s.rm.RScan? && s.rm.i == s.q.end && s.q.start != s.q.end && Refillable(s)
    ensures Final(s, run) == Some(u)
    ensures WellFormed(u.q) && u.sm.SReplayed? && u.rm.RNone? && u.rp.RIdle? && !u.registered
    ensures u.q.start != u.q.end && u.q.buf[u.q.start] != 0 && u.q.recv == s.q.recv
  {
    hide Contents, ReleasedOnce, Counted, Final;
    var a := RLook(s).value;
    var b := if a.sm.SUp? then SCrash(a).value else a;
    u := SReplay(b).value;
    run := if a.sm.SUp? then [DoRLook, DoSCrash, DoSReplay] else [DoRLook, DoSReplay];
    Chain(run, if a.sm.SUp? then [s, a, b, u] else [s, a, u]);
  }

  lemma CanDeliverAgain(s: Ring) returns (more: seq<Action>)
    requires Inv(s) && s.rm.RScan? && s.rm.i == s.q.end && s.q.start != s.q.end && Refillable(s)
    ensures Delivers(s, more)
  {
    var u, run := Refill(s);
    var t;
    {
      hide Leads;
      Here(u);
      Onward(u, u, DoREnlist(false));
      var a := REnlist(u, false).value;
      Onward(u, a, DoRRegister);
      t := TakeOne(u, RRegister(a).value);
      t := ReceiveOne(u, t);
    }
    var rest :| Final(u, rest).Some? && Polite(u, rest) && Final(u, rest).value == t;
    more := run + rest;
    Joined(s, run, rest);
  }

  /** When the monitor has recovered a receiver, something can be received again exactly if nothing was
      queued and the sender runs, or the sender's newest record can fill the slot at `start` again. For a
      recovered receiver leaves `start` on an emptied slot, at which every later receiver stops; and a
      sender that is gone sends nothing. */
  lemma RecoveredRingExact(run: seq<Action>)
    requires Run(run) && Reached(run).rm.RScan? && Reached(run).rm.i == Reached(run).q.end
    ensures (exists more :: Delivers(Reached(run), more))
              <==> if Reached(run).q.start == Reached(run).q.end then Reached(run).sm.SUp? else Refillable(Reached(run))
  {
    hide Leads;
    ReachedInv(run);
    var s := Reached(run);
    if s.q.start == s.q.end && s.sm.SUp? {
      var more := CanDeliver(s);
    } else if s.q.start != s.q.end && Refillable(s) {
      var more := CanDeliverAgain(s);
    } else {
      forall more | Final(s, more).Some? ensures !Delivers(s, more) {
        if s.q.start != s.q.end {
          RecoveredRingIsStuck(run, more);
        } else {
          SilentForever(s, more);
        }
      }
    }
  }
}

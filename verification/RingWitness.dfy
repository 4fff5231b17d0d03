/** Runs from the empty ring in which recovery goes wrong. */
module RingWitness {
  import opened RefTypes
  import opened RingMachine
  import opened RingTheorems
  import opened RingStray

  /** The first scan over empty slots up to `start`. */
  lemma {:induction false} ScanRuns(s: Ring, t: Ring, i: nat)
    requires Leads(s, t) && WellFormed(t.q) && t.q.start == 0 && 0 < i < MESSAGE_BUFFER_SIZE && t.sm == SFirst(i)
    requires forall j :: i <= j < MESSAGE_BUFFER_SIZE ==> t.q.buf[j] == 0
    ensures Leads(s, t.(sm := SScanned(0)))
    decreases MESSAGE_BUFFER_SIZE - i
  {
    hide Leads;
    assert SLook(t) == Some(t.(sm := SNext(Succ(i))));
    Onward(s, t, DoSLook);
    var u := t.(sm := SNext(Succ(i)));
    Onward(s, u, DoSAgain);
    if i < MESSAGE_BUFFER_SIZE - 1 {
      assert SAgain(u) == Some(t.(sm := SFirst(i + 1)));
      ScanRuns(s, t.(sm := SFirst(i + 1)), i + 1);
    } else {
      assert SAgain(u) == Some(t.(sm := SScanned(0)));
    }
  }

  /** One send of object 1, complete. */
  lemma SendRuns() returns (t: Ring)
    ensures Leads(Empty, t) && t.sm.SUp? && t.rm.RNone? && t.rp.RIdle? && t.sp.SIdle? && !t.registered
    ensures WellFormed(t.q) && t.q.start == 0 && t.q.end == 1 && t.q.buf[0] == 1 && t.q.recv == t.q.rel == []
    ensures forall j :: 1 <= j < MESSAGE_BUFFER_SIZE ==> t.q.buf[j] == 0
    ensures t.slog == Logged(0, 1) && Cnt(t, 1) == 2 && t.ext[1] == 1
  {
    hide Leads, Final, Polite;
    Here(Empty);
    var a := Acquire(Empty, 1).value;
    Onward(Empty, Empty, DoAcquire(1));
    Onward(Empty, a, DoBeginSend(1));
    var b := BeginSend(a, 1).value;
    Onward(Empty, b, DoTest1);
    var c := Test1(b).value;
    Onward(Empty, c, DoTest2);
    var d := Test2(c).value;
    Onward(Empty, d, DoS1);
    var e := S1(d).value;
    Onward(Empty, e, DoS2);
    t := S2(e).value;
  }

  /** Then the sender stops, and the monitor finds no receiver. */
  lemma RaceBegins() returns (t: Ring)
    ensures Leads(Empty, t) && WellFormed(t.q) && t.sm == SSecond(0) && t.rm.RNone? && t.rp.RIdle? && !t.registered
    ensures t.q.start == 0 && t.q.end == 1 && t.q.buf[0] == 1 && t.q.recv == t.q.rel == []
  {
    hide Leads, Final, Polite;
    var s := SendRuns();
    Onward(Empty, s, DoSCrash);
    var a := SCrash(s).value;
    Onward(Empty, a, DoSReplay);
    var r := SReplay(a).value;
    assert r.q.buf == a.q.buf;
    Onward(Empty, r, DoSBegin);
    var b := SBegin(r).value;
    ScanRuns(Empty, b, 1);
    var c := b.(sm := SScanned(0));
    Onward(Empty, c, DoSReadId);
    t := SReadId(c).value;
  }

  /** When it is about to release the slot at `start`, a receiver registers. */
  lemma RaceRuns() returns (t: Ring)
    ensures Leads(Empty, t) && WellFormed(t.q) && t.sm == SSecondHold(0, 1) && t.rm.RUp? && t.rp.RIdle?
    ensures t.q.start == 0 && t.q.end == 1 && t.q.buf[0] == 1 && t.q.recv == t.q.rel == []
  {
    hide Leads, Final, Polite;
    var d := RaceBegins();
    Onward(Empty, d, DoSLook2);
    var e := SLook2(d).value;
    Onward(Empty, e, DoREnlist(false));
    var f := REnlist(e, false).value;
    Onward(Empty, f, DoRRegister);
    t := RRegister(f).value;
  }

  /** The guard of the second scan is checked once, so a queued reference can be released twice. */
  lemma DoubleReleaseHappens() returns (run: seq<Action>)
    ensures Run(run) && Final(Reached(run), DoubleRelease).Some?
    ensures Final(Reached(run), DoubleRelease).value.q.rel == [0, 0]
  {
    hide Final, Polite, Next;
    var t := RaceRuns();
    run :| Final(Empty, run).Some? && Polite(Empty, run) && Final(Empty, run).value == t;
    RaceReleasesTwice(t);
  }

  /** One reference is queued when a receiver registers and stops; the monitor releases it. */
  lemma StuckRuns() returns (t: Ring)
    ensures Leads(Empty, t) && t.rm == RScan(1) && t.q.start == 0 && t.q.end == 1 && t.sm.SUp? && t.slog.NoLog?
  {
    hide Leads, Final, Polite;
    var s := SendRuns();
    Onward(Empty, s, DoSOther);
    var o := SOther(s).value;
    Onward(Empty, o, DoREnlist(false));
    var a := REnlist(o, false).value;
    Onward(Empty, a, DoRRegister);
    var b := RRegister(a).value;
    Onward(Empty, b, DoRCrash);
    var c := RCrash(b).value;
    Onward(Empty, c, DoRReplay);
    var r := RReplay(c).value;
    Onward(Empty, r, DoRBegin);
    var d := RBegin(r).value;
    Onward(Empty, d, DoRLook);
    var e := RLook(d).value;
    Onward(Empty, e, DoRRelease);
    t := RRelease(e).value;
  }

  /** A recovered receiver can leave the ring stuck: `RecoveredRingIsStuck` applies to this run. */
  lemma StuckHappens() returns (run: seq<Action>)
    ensures Run(run) && Reached(run).rm.RScan? && Reached(run).rm.i == Reached(run).q.end
    ensures Reached(run).q.start != Reached(run).q.end && Reached(run).sm.SUp? && !Refillable(Reached(run))
  {
    hide Final, Polite, Next;
    var t := StuckRuns();
    run :| Final(Empty, run).Some? && Polite(Empty, run) && Final(Empty, run).value == t;
  }

  /** A receiver comes, and takes the reference all but for the last step. */
  lemma ReceiveRuns() returns (t: Ring)
    ensures Leads(Empty, t) && t.sm.SUp? && t.sp.SIdle? && t.rm.RUp? && t.rp == RUnlinked(1) && t.registered
    ensures WellFormed(t.q) && t.q.start == 0 && t.q.end == 1 && t.q.buf[0] == 0
    ensures t.slog == Logged(0, 1) && t.rlog == Logged(0, 0)
  {
    hide Leads, Final, Polite;
    var s := SendRuns();
    Onward(Empty, s, DoREnlist(false));
    var a := REnlist(s, false).value;
    Onward(Empty, a, DoRRegister);
    var b := RRegister(a).value;
    Onward(Empty, b, DoRTest);
    var c := RTest(b).value;
    Onward(Empty, c, DoRLoad);
    var d := RLoad(c).value;
    t := UnlinkRuns(d);
  }

  lemma UnlinkRuns(d: Ring) returns (t: Ring)
    requires Leads(Empty, d) && WellFormed(d.q) && d.q.start == 0 && d.q.buf[0] == 1 && d.rp == RLoaded(1) && d.rm.RUp?
    ensures Leads(Empty, t) && t.rp == RUnlinked(1) && WellFormed(t.q) && t.q.start == 0 && t.q.end == d.q.end
            && t.q.buf[0] == 0
    ensures t.rlog == Logged(0, 0) && t.slog == d.slog && t.sm == d.sm && t.sp == d.sp && t.rm == d.rm
            && t.registered == d.registered
  {
    hide Leads, Final, Polite;
    Onward(Empty, d, DoR1);
    var e := R1(d).value;
    Onward(Empty, e, DoRArg);
    var f := RArg(e).value;
    Onward(Empty, f, DoR2);
    t := R2(f).value;
  }

  /** One reference is sent and received, and the sender stops: `OutdatedIsFatal` applies to this run. */
  lemma OutdatedHappens() returns (run: seq<Action>)
    ensures Run(run) && SReplay(Reached(run)).Some? && Outdated(Reached(run)) && !Cancelled(Reached(run))
  {
    hide Final, Polite;
    var s := ReceiveRuns();
    var t;
    {
      hide Leads;
      Onward(Empty, s, DoR3);
      var a := R3(s).value;
      Onward(Empty, a, DoSCrash);
      t := SCrash(a).value;
    }
    hide Next;
    run :| Final(Empty, run).Some? && Polite(Empty, run) && Final(Empty, run).value == t;
  }

  /** Both stop before the receiver's last step: `ReplaysCancel` applies to this run. */
  lemma CancelHappens() returns (run: seq<Action>)
    ensures Run(run) && SReplay(Reached(run)).Some? && Outdated(Reached(run)) && Cancelled(Reached(run))
  {
    hide Final, Polite;
    var s := ReceiveRuns();
    var t;
    {
      hide Leads;
      Onward(Empty, s, DoRCrash);
      var a := RCrash(s).value;
      Onward(Empty, a, DoSCrash);
      t := SCrash(a).value;
    }
    hide Next;
    run :| Final(Empty, run).Some? && Polite(Empty, run) && Final(Empty, run).value == t;
  }
}

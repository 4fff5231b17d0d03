/** What the message ring guarantees in every run, and where it does not. */
module RingTheorems {
  import opened RefTypes
  import opened RingMachine
  import opened RingInvariant
  import opened RingSteps

  lemma Keep(s: Ring, a: Action)
    requires Inv(s) && Next(s, a).Some? && !Rough(s, a)
    ensures Inv(Next(s, a).value)
  {
    hide Inv;
    match a
    case DoAcquire(o) => KeepAcquire(s, o);
    case DoDrop(o) => KeepDrop(s, o);
    case DoBeginSend(o) => KeepBeginSend(s, o);
    case DoTest1 => KeepTest1(s);
    case DoTest2 => KeepTest2(s);
    case DoS1 => KeepS1(s);
    case DoS2 => KeepS2(s);
    case DoSOther => KeepSOther(s);
    case DoSCrash => KeepSCrash(s);
    case DoSReplay => KeepSReplay(s);
    case DoSBegin => KeepSBegin(s);
    case DoSLook => KeepSLook(s);
    case DoSRelease => KeepSRelease(s);
    case DoSAgain => KeepSAgain(s);
    case DoSReadId => KeepSReadId(s);
    case DoSLook2 => KeepSLook2(s);
    case DoSRelease2 => KeepSRelease2(s);
    case DoREnlist(same) => KeepREnlist(s, same);
    case DoRRegister => KeepRRegister(s);
    case DoRTest => KeepRTest(s);
    case DoRLoad => KeepRLoad(s);
    case DoR1 => KeepR1(s);
    case DoRArg => KeepRArg(s);
    case DoR2 => KeepR2(s);
    case DoR3 => KeepR3(s);
    case DoROther => KeepROther(s);
    case DoRCrash => KeepRCrash(s);
    case DoRReplay => KeepRReplay(s);
    case DoRBegin => KeepRBegin(s);
    case DoRLook => KeepRLook(s);
    case DoRRelease => KeepRRelease(s);
  }

  lemma {:induction false} RunInv(s: Ring, run: seq<Action>)
    requires Inv(s) && Final(s, run).Some? && Polite(s, run)
    ensures Inv(Final(s, run).value)
    decreases |run|
  {
    hide Inv, Next, Rough;
    if run != [] {
      Keep(s, run[0]);
      RunInv(Next(s, run[0]).value, run[1..]);
    }
  }

  /** A polite run from the empty ring. */
  predicate Run(run: seq<Action>) {
    Final(Empty, run).Some? && Polite(Empty, run)
  }

  function Reached(run: seq<Action>): Ring
    requires Run(run)
  {
    Final(Empty, run).value
  }

  lemma ReachedInv(run: seq<Action>)
    requires Run(run)
    ensures Inv(Reached(run))
  {
    InitInv();
    RunInv(Empty, run);
  }

  // ----- safety

  /** First in, first out, through at most 15 slots: what was received is a prefix of what was sent; the
      slots in [start, end) hold the next references in order, except those already released; of the
      others only the one at `end` may hold something, between S1 and S2. */
  lemma FirstInFirstOut(run: seq<Action>, i: nat)
    requires Run(run) && i < MESSAGE_BUFFER_SIZE
    ensures var q := Reached(run).q;
            && WellFormed(q) && q.recv <= q.sent && |q.sent| <= |q.recv| + 15
            && (Token(q, i) < |q.sent| && Token(q, i) !in q.rel ==> q.buf[i] == q.sent[Token(q, i)] != 0)
            && (Token(q, i) < |q.sent| && Token(q, i) in q.rel ==> q.buf[i] == 0)
            && (Token(q, i) >= |q.sent| && q.buf[i] != 0 ==> i == q.end && Reached(run).sp.SLinked?)
  {
    ReachedInv(run);
  }

  /** The two-part full test is exact: it answers full exactly when 15 references are queued. */
  lemma FullTestExact(run: seq<Action>)
    requires Run(run)
    ensures var q := Reached(run).q;
            (q.end + 1 == q.start || (q.end >= q.start && q.end - q.start == MESSAGE_BUFFER_SIZE - 1))
            <==> |q.sent| - |q.recv| == 15
    ensures var s := Reached(run);
            s.sm.SUp? && s.sp.SEntered? ==>
              && Test1(s).Some? && var t := Test1(s).value;
              (t.sp.SIdle? || (Test2(t).Some? && Test2(t).value.sp.SIdle?)) <==> |s.q.sent| - |s.q.recv| == 15
  {
    ReachedInv(run);
  }

  /** A recovery that releases queued references, or that forgets a receive cut short. */
  predicate Recovering(a: Action) {
    a.DoRBegin? || a.DoRRelease? || a.DoSRelease2?
  }

  /** In [start, end) only the slot of the receive under way has been released. */
  ghost predicate Full(s: Ring) {
    forall k :: |s.q.recv| < k < |s.q.sent| || (k == |s.q.recv| < |s.q.sent| && !s.rp.RUnlinked?) ==> k !in s.q.rel
  }

  /** The other steps touch neither what was sent, received and released nor the receiver's last step. */
  lemma SameLogs(s: Ring, a: Action)
    requires Next(s, a).Some? && !Recovering(a) && !a.DoS2? && !a.DoSRelease? && !a.DoR2? && !a.DoR3?
    ensures Next(s, a).value.q.sent == s.q.sent && Next(s, a).value.q.recv == s.q.recv
            && Next(s, a).value.q.rel == s.q.rel
    ensures Next(s, a).value.rp.RUnlinked? == s.rp.RUnlinked?
  {
  }

  lemma FullKept(s: Ring, a: Action)
    requires Inv(s) && Full(s) && Next(s, a).Some? && !Rough(s, a) && !Recovering(a)
    ensures Full(Next(s, a).value)
  {
    hide Contents, Counted, Found, Scanned;
    if a.DoSRelease? {
      EndSlot(s.q, Pending(s.sp));
    } else if a.DoS2? {
      assert |s.q.sent| !in s.q.rel;
    } else if !a.DoR2? && !a.DoR3? {
      hide Next, Inv;
      SameLogs(s, a);
    }
  }

  lemma {:induction false} FullRun(s: Ring, run: seq<Action>)
    requires Inv(s) && Full(s) && Final(s, run).Some? && Polite(s, run)
    requires forall a :: a in run ==> !Recovering(a)
    ensures Full(Final(s, run).value)
    decreases |run|
  {
    hide Inv, Next, Rough, Full, Recovering;
    if run != [] {
      assert run[0] in run;
      Keep(s, run[0]);
      FullKept(s, run[0]);
      FullRun(Next(s, run[0]).value, run[1..]);
    }
  }

  /** As long as nobody's queue is recovered, the slots in [start, end) are nonzero, all but the one at
      `start` between R2 and R3. */
  lemma QueuedSlots(run: seq<Action>, i: nat)
    requires Run(run) && i < MESSAGE_BUFFER_SIZE && forall a :: a in run ==> !Recovering(a)
    ensures var s := Reached(run);
            WellFormed(s.q) && (Token(s.q, i) < |s.q.sent| ==> (s.q.buf[i] == 0 <==> i == s.q.start && s.rp.RUnlinked?))
  {
    ReachedInv(run);
    InitInv();
    FullRun(Empty, run);
    var s := Reached(run);
    if Token(s.q, i) < |s.q.sent| {
      SlotInside(s.q, Pending(s.sp), i);
    }
  }

  /** No object's count touches zero on its way: not while a slot holds it, not while the sender is in the
      call, not from the moment the receiver reads it to the moment it owns it. */
  lemma AliveInTransit(run: seq<Action>)
    requires Run(run)
    ensures var s := Reached(run);
            && (forall i :: 0 <= i < |s.q.buf| && s.q.buf[i] != 0 ==> Cnt(s, s.q.buf[i]) >= 1)
            && (s.sm.SUp? && !s.sp.SIdle? ==> Cnt(s, s.sp.o) >= if s.sp.SLinked? then 2 else 1)
            && (s.rp.RLoaded? || s.rp.RUnlinked? ==> Cnt(s, s.rp.o) >= 1)
            && (s.rp.RLinked? || s.rp.RUnlinking? ==> Cnt(s, s.rp.o) >= 2)
  {
    ReachedInv(run);
    var s := Reached(run);
    forall i | 0 <= i < |s.q.buf| && s.q.buf[i] != 0 ensures Cnt(s, s.q.buf[i]) >= 1 {
      assert s.q.buf[i] in multiset(s.q.buf);
    }
    StartSlot(s.q, Pending(s.sp));
    EndSlot(s.q, Pending(s.sp));
    SlotOutside(s.q, Pending(s.sp), s.q.end);
    assert s.q.buf[s.q.start] in multiset(s.q.buf) && s.q.buf[s.q.end] in multiset(s.q.buf);
  }

  // ----- recovery

  /** In every state every reference put into the ring was released at most once, is in its slot exactly
      if it was not, and each object's count is the number of references to it. */
  lemma AtMostOnce(run: seq<Action>, o: Obj)
    requires Run(run) && o != 0
    ensures var s := Reached(run);
            && (forall x, y :: 0 <= x < y < |s.q.rel| ==> s.q.rel[x] != s.q.rel[y])
            && (forall k :: k in s.q.rel ==> k < Linked(s.q, Pending(s.sp)))
            && Cnt(s, o) == multiset(s.q.buf)[o] + s.ext[o] + LentCount(s, o) + TakenCount(s, o)
  {
    ReachedInv(run);
  }

  /** Once the sender is recovered and no receiver is left (none came, or the last one is recovered), in
      whatever order and wherever they stopped: all 16 slots are empty, every reference ever put into
      the ring was released exactly once, and no count is kept up by the ring. */
  lemma BothRecovered(run: seq<Action>, o: Obj)
    requires Run(run) && Reached(run).sm.SGone? && Reached(run).rm.RNone? && o != 0
    ensures var s := Reached(run);
            && |s.q.buf| == MESSAGE_BUFFER_SIZE && (forall i :: 0 <= i < MESSAGE_BUFFER_SIZE ==> s.q.buf[i] == 0)
            && (forall k: nat :: k < Linked(s.q, Pending(s.sp)) <==> k in s.q.rel)
            && (forall x, y :: 0 <= x < y < |s.q.rel| ==> s.q.rel[x] != s.q.rel[y])
            && Cnt(s, o) == s.ext[o]
  {
    ReachedInv(run);
    var s := Reached(run);
    forall k: nat | k < Linked(s.q, Pending(s.sp)) ensures k in s.q.rel {
      assert Cleared(s.q, |s.q.sent|);
    }
    forall i | 0 <= i < MESSAGE_BUFFER_SIZE ensures s.q.buf[i] == 0 {
      assert s.q.buf[i] == Due(s.q, Pending(s.sp), Token(s.q, i));
    }
    assert o !in multiset(s.q.buf);
  }

  // ----- building runs

  lemma {:induction false} OneMore(s: Ring, run: seq<Action>, a: Action)
    requires Final(s, run).Some? && Polite(s, run)
    requires Next(Final(s, run).value, a).Some? && !Rough(Final(s, run).value, a)
    ensures Final(s, run + [a]) == Next(Final(s, run).value, a) && Polite(s, run + [a])
    decreases |run|
  {
    hide Next, Rough;
    var run' := run + [a];
    if run == [] {
      assert run' == [a] && run'[1..] == [];
      assert Final(Next(s, a).value, []) == Some(Next(s, a).value);
    } else {
      assert run'[1..] == run[1..] + [a];
      OneMore(Next(s, run[0]).value, run[1..], a);
    }
  }

  lemma {:induction false} Joined(s: Ring, run: seq<Action>, more: seq<Action>)
    requires Final(s, run).Some?
    ensures Final(s, run + more) == Final(Final(s, run).value, more)
    decreases |run|
  {
    hide Next;
    if run == [] {
      assert run + more == more;
    } else {
      assert (run + more)[0] == run[0] && (run + more)[1..] == run[1..] + more;
      Joined(Next(s, run[0]).value, run[1..], more);
    }
  }

  /** The steps, one after the other, lead from one state to the other. */
  ghost predicate Leads(s: Ring, t: Ring) {
    exists run :: Final(s, run).Some? && Polite(s, run) && Final(s, run).value == t
  }

  lemma Here(s: Ring)
    ensures Leads(s, s)
  {
    assert Final(s, []).Some? && Polite(s, []);
  }

  lemma Onward(s: Ring, t: Ring, a: Action)
    requires Leads(s, t) && Next(t, a).Some? && !Rough(t, a)
    ensures Leads(s, Next(t, a).value)
  {
    hide Next, Rough;
    var run :| Final(s, run).Some? && Polite(s, run) && Final(s, run).value == t;
    OneMore(s, run, a);
    assert Final(s, run + [a]).Some?;
  }

  // ----- where it does not

  /** A run that visits the given states. */
  lemma {:induction false} Chain(run: seq<Action>, states: seq<Ring>)
    requires |states| == |run| + 1
    requires forall n :: 0 <= n < |run| ==> Next(states[n], run[n]) == Some(states[n + 1])
    ensures Final(states[0], run) == Some(states[|run|])
    decreases |run|
  {
    hide Next;
    if run != [] {
      forall n | 0 <= n < |run[1..]| ensures Next(states[1..][n], run[1..][n]) == Some(states[1..][n + 1]) {
        assert Next(states[n + 1], run[n + 1]) == Some(states[n + 1 + 1]);
      }
      Chain(run[1..], states[1..]);
    }
  }

  const DoubleRelease := [DoRTest, DoRLoad, DoR1, DoRArg, DoR2, DoSRelease2]

  /** A receive that starts at the slot the second scan is looking at releases the reference twice: the
      steps are possible whenever the scan is about to release the slot at `start`, and they leave the
      send's number twice in the record, and the object's count one lower with a reference more. */
  lemma RaceReleasesTwice(s: Ring)
    requires WellFormed(s.q) && s.sm.SSecondHold? && s.sm.i == s.q.start && s.rm.RUp? && s.rp.RIdle?
    requires s.q.start != s.q.end && s.q.buf[s.q.start] == s.sm.o != 0
    ensures Final(s, DoubleRelease).Some?
    ensures var t := Final(s, DoubleRelease).value;
            && t.q.rel == s.q.rel + [|s.q.recv|, |s.q.recv|]
            && t.rp == RUnlinked(s.sm.o) && Cnt(t, s.sm.o) == Cnt(s, s.sm.o) - 1
  {
    hide Final, Polite, Rough;
    var o := s.sm.o;
    var c := s.(rp := RLinked(o), cnt := Inc(s, o), rlog := NoLog);
    var d := c.(rp := RUnlinking(o, o));
    var e := d.(rp := RUnlinked(o), q := Take(s.q, s.q.start), cnt := Dec(d, o), rlog := Logged(s.q.start, 0));
    var f := e.(sm := SSecond(Succ(s.sm.i)), q := Take(e.q, s.q.start), cnt := Dec(e, o));
    RaceReceives(s, c, d, e);
    RaceScans(e, f);
    Chain(DoubleRelease, [s, s.(rp := RNonempty), s.(rp := RLoaded(o)), c, d, e, f]);
  }

  lemma RaceReceives(s: Ring, c: Ring, d: Ring, e: Ring)
    requires WellFormed(s.q) && s.rm.RUp? && s.rp.RIdle?
    requires s.q.start != s.q.end && s.q.buf[s.q.start] != 0
    requires c == s.(rp := RLinked(s.q.buf[s.q.start]), cnt := Inc(s, s.q.buf[s.q.start]), rlog := NoLog)
    requires d == c.(rp := RUnlinking(s.q.buf[s.q.start], s.q.buf[s.q.start]))
    requires e == d.(rp := RUnlinked(s.q.buf[s.q.start]), q := Take(s.q, s.q.start), cnt := Dec(d, s.q.buf[s.q.start]),
                     rlog := Logged(s.q.start, 0))
    ensures Next(s, DoRTest) == Some(s.(rp := RNonempty))
    ensures Next(s.(rp := RNonempty), DoRLoad) == Some(s.(rp := RLoaded(s.q.buf[s.q.start])))
    ensures Next(s.(rp := RLoaded(s.q.buf[s.q.start])), DoR1) == Some(c)
    ensures Next(c, DoRArg) == Some(d) && Next(d, DoR2) == Some(e)
    ensures e.q.rel == s.q.rel + [|s.q.recv|] && Cnt(e, s.q.buf[s.q.start]) == Cnt(s, s.q.buf[s.q.start])
  {
    hide Final, Polite;
    RaceUnlinks(c, d, e);
  }

  lemma RaceUnlinks(c: Ring, d: Ring, e: Ring)
    requires WellFormed(c.q) && c.rm.RUp? && c.rp.RLinked? && c.q.buf[c.q.start] == c.rp.o
    requires d == c.(rp := RUnlinking(c.rp.o, c.rp.o))
    requires e == d.(rp := RUnlinked(c.rp.o), q := Take(c.q, c.q.start), cnt := Dec(d, c.rp.o),
                     rlog := Logged(c.q.start, 0))
    ensures Next(c, DoRArg) == Some(d) && Next(d, DoR2) == Some(e)
    ensures e.q.rel == c.q.rel + [|c.q.recv|] && Cnt(e, c.rp.o) == Cnt(c, c.rp.o) - 1
  {
  }

  lemma RaceScans(e: Ring, f: Ring)
    requires WellFormed(e.q) && e.sm.SSecondHold? && e.sm.i == e.q.start
    requires f == e.(sm := SSecond(Succ(e.sm.i)), q := Take(e.q, e.q.start), cnt := Dec(e, e.sm.o))
    ensures Next(e, DoSRelease2) == Some(f)
    ensures f.q.rel == e.q.rel + [|e.q.recv|] && Cnt(f, e.sm.o) == Cnt(e, e.sm.o) - 1
  {
    hide Final, Polite;
  }

  lemma RacyAtStart(s: Ring)
    requires Inv(s) && Racy(s, DoRTest)
    ensures WellFormed(s.q) && s.sm.i == s.q.start != s.q.end && s.q.buf[s.q.start] != 0 && s.rm.RUp? && s.rp.RIdle?
    ensures s.sm.SSecondHold? ==> s.sm.o == s.q.buf[s.q.start]
  {
    var q := s.q;
    StartSlot(q, Pending(s.sp));
    assert Cleared(q, Token(q, s.sm.i));
  }

  /** Being polite is necessary as well: from every reachable state in which a receive can start during
      the second scan, some continuation releases a reference twice. */
  lemma RacyIsFatal(run: seq<Action>) returns (more: seq<Action>)
    requires Run(run) && Racy(Reached(run), DoRTest)
    ensures Final(Reached(run), more).Some?
    ensures Final(Reached(run), more).value.q.rel == Reached(run).q.rel + [|Reached(run).q.recv|, |Reached(run).q.recv|]
  {
    hide Next, Polite;
    ReachedInv(run);
    var s := Reached(run);
    RacyAtStart(s);
    if s.sm.SSecondHold? {
      RaceReleasesTwice(s);
      more := DoubleRelease;
    } else {
      var t := s.(sm := SSecondHold(s.q.start, s.q.buf[s.q.start]));
      RaceReleasesTwice(t);
      LookFirst(s);
      more := [DoSLook2] + DoubleRelease;
      assert more[0] == DoSLook2 && more[1..] == DoubleRelease;
    }
  }

  lemma LookFirst(s: Ring)
    requires WellFormed(s.q) && s.sm.SSecond? && s.sm.i == s.q.start != s.q.end && s.q.buf[s.q.start] != 0
    ensures Next(s, DoSLook2) == Some(s.(sm := SSecondHold(s.q.start, s.q.buf[s.q.start])))
  {
  }

  /** The replay of the sender's record can put a reference back into the slot at `start`. */
  predicate Refillable(s: Ring) {
    (s.sm.SUp? || s.sm.SDown?) && s.slog.Logged? && s.slog.slot == s.q.start
  }

  /** The receiver at `start` finds nothing, and nothing will come. */
  ghost predicate Stuck(s: Ring) {
    && s.rp.RIdle? && WellFormed(s.q) && s.q.buf[s.q.start] == 0 && (s.rlog.Logged? ==> s.rlog.obj == 0)
    && !Refillable(s)
    && ((Inv(s) && |s.q.recv| < |s.q.sent| && |s.q.recv| in s.q.rel) || (!s.sm.SUp? && !s.sm.SDown?))
  }

  /** A receiver that finds its slot empty stays where it is. */
  lemma IdleStep(s: Ring, a: Action)
    requires Next(s, a).Some? && s.rp.RIdle? && WellFormed(s.q) && s.q.buf[s.q.start] == 0
    ensures var t := Next(s, a).value;
            && t.rp.RIdle? && t.q.recv == s.q.recv && t.q.start == s.q.start && !Racy(s, a)
            && s.q.sent <= t.q.sent && s.q.rel <= t.q.rel
  {
  }

  /** Once the sender is recovered nobody writes anything but nulls into the slots. */
  lemma GoneStep(s: Ring, a: Action)
    requires Next(s, a).Some? && s.rp.RIdle? && WellFormed(s.q) && s.q.buf[s.q.start] == 0
             && (s.rlog.Logged? ==> s.rlog.obj == 0)
    requires !s.sm.SUp? && (s.sm.SDown? ==> !Refillable(s) && a.DoSReplay?)
    ensures var t := Next(s, a).value;
            && WellFormed(t.q) && t.q.buf[t.q.start] == 0 && (t.rlog.Logged? ==> t.rlog.obj == 0) && !t.sm.SUp?
               && !t.sm.SDown?
  {
  }

  lemma StuckKept(s: Ring, a: Action)
    requires Stuck(s) && Next(s, a).Some?
    ensures Stuck(Next(s, a).value) && Next(s, a).value.q.recv == s.q.recv
  {
    hide QueueOk, Rough;
    IdleStep(s, a);
    if (!s.sm.SUp? && !s.sm.SDown?) || PutsBack(s, a) {
      hide Next, Inv;
      GoneStep(s, a);
    } else {
      StartSlot(s.q, Pending(s.sp));
      StillDry(s, a);
      hide Next, Inv;
      RoughIs(s, a);
      Keep(s, a);
      QueueOf(Next(s, a).value);
      StartSlot(Next(s, a).value.q, Pending(Next(s, a).value.sp));
    }
  }

  lemma RoughIs(s: Ring, a: Action)
    ensures Rough(s, a) <==> Racy(s, a) || PutsBack(s, a)
  {
  }

  lemma QueueOf(s: Ring)
    requires Inv(s)
    ensures QueueOk(s.q, Pending(s.sp)) && (s.rlog.Logged? ==> s.rlog.obj == 0)
  {
  }

  /** A send goes into the slot at `end`. */
  lemma StillDry(s: Ring, a: Action)
    requires Next(s, a).Some? && s.rp.RIdle? && s.q.start != s.q.end && !Refillable(s)
    requires s.q.start < |s.q.buf| && s.q.buf[s.q.start] == 0
    ensures !Refillable(Next(s, a).value)
  {
  }

  lemma {:induction false} StuckForever(s: Ring, run: seq<Action>)
    requires Stuck(s) && Final(s, run).Some?
    ensures Final(s, run).value.q.recv == s.q.recv
    decreases |run|
  {
    hide Stuck, Next;
    if run != [] {
      StuckKept(s, run[0]);
      StuckForever(Next(s, run[0]).value, run[1..]);
    }
  }

  /** Recovery of a receiver empties the queued slots but leaves `start` where it is. If anything was
      queued, no later receiver ever receives anything: it stops at the empty slot - unless the sender's
      newest record is of that very slot, and its replay fills it again. */
  lemma RecoveredRingIsStuck(run: seq<Action>, more: seq<Action>)
    requires Run(run) && Reached(run).rm.RScan? && Reached(run).rm.i == Reached(run).q.end
    requires Reached(run).q.start != Reached(run).q.end && !Refillable(Reached(run))
    requires Final(Reached(run), more).Some?
    ensures Final(Reached(run), more).value.q.recv == Reached(run).q.recv
  {
    ReachedInv(run);
    var s := Reached(run);
    StartSlot(s.q, Pending(s.sp));
    ScanEnds(s.q, Pending(s.sp));
    assert Cleared(s.q, |s.q.sent|);
    StuckForever(s, more);
  }
}

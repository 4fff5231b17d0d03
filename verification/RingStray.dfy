/** What becomes of a reference that the replay of an outdated record put back into the ring. */
module RingStray {
  import opened RefTypes
  import opened RingMachine
  import opened RingInvariant
  import opened RingSteps
  import opened RingTheorems
  import opened RingReplay

  // ----- scans over empty slots

  /** The slot n places after slot a. */
  function After(a: nat, n: nat): (i: nat)
    requires a < MESSAGE_BUFFER_SIZE && n <= MESSAGE_BUFFER_SIZE
    ensures i < MESSAGE_BUFFER_SIZE
  {
    if a + n < MESSAGE_BUFFER_SIZE then a + n else a + n - MESSAGE_BUFFER_SIZE
  }

  function Distance(a: nat, b: nat): (n: nat)
    requires a < MESSAGE_BUFFER_SIZE && b < MESSAGE_BUFFER_SIZE
    ensures n < MESSAGE_BUFFER_SIZE && After(a, n) == b
  {
    if b >= a then b - a else b + MESSAGE_BUFFER_SIZE - a
  }

  ghost predicate EmptyFrom(q: Queue, a: nat, n: nat)
    requires WellFormed(q) && a < MESSAGE_BUFFER_SIZE && n <= MESSAGE_BUFFER_SIZE
  {
    forall m: nat :: m < n ==> q.buf[After(a, m)] == 0
  }

  ghost predicate Avoids(a: nat, n: nat, b: nat)
    requires a < MESSAGE_BUFFER_SIZE && n <= MESSAGE_BUFFER_SIZE
  {
    forall m: nat :: m < n ==> After(a, m) != b
  }

  lemma NextEmpty(q: Queue, a: nat, n: nat)
    requires WellFormed(q) && a < MESSAGE_BUFFER_SIZE && 0 < n <= MESSAGE_BUFFER_SIZE && EmptyFrom(q, a, n)
    ensures q.buf[a] == 0 && EmptyFrom(q, Succ(a), n - 1) && After(Succ(a), n - 1) == After(a, n)
  {
    assert After(a, 0) == a;
    forall m: nat | m < n - 1 ensures q.buf[After(Succ(a), m)] == 0 {
      assert After(Succ(a), m) == After(a, m + 1);
    }
  }

  lemma NextAvoids(a: nat, n: nat, b: nat)
    requires a < MESSAGE_BUFFER_SIZE && 0 < n <= MESSAGE_BUFFER_SIZE && Avoids(a, n, b)
    ensures a != b && Avoids(Succ(a), n - 1, b)
  {
    assert After(a, 0) == a;
    forall m: nat | m < n - 1 ensures After(Succ(a), m) != b {
      assert After(Succ(a), m) == After(a, m + 1);
    }
  }

  /** The first scan, before it comes to `start`. */
  lemma {:induction false} FirstOver(s0: Ring, s: Ring, n: nat)
    requires Leads(s0, s) && WellFormed(s.q) && s.sm.SFirst? && s.sm.i < MESSAGE_BUFFER_SIZE && n < MESSAGE_BUFFER_SIZE
    requires EmptyFrom(s.q, s.sm.i, n) && Avoids(Succ(s.sm.i), n, s.q.start)
    ensures Leads(s0, s.(sm := SFirst(After(s.sm.i, n))))
    decreases n
  {
    hide Leads, EmptyFrom, Avoids;
    var a := s.sm.i;
    if n > 0 {
      NextEmpty(s.q, a, n);
      NextAvoids(Succ(a), n, s.q.start);
      Onward(s0, s, DoSLook);
      var t := s.(sm := SNext(Succ(a)));
      assert SLook(s) == Some(t);
      Onward(s0, t, DoSAgain);
      assert SAgain(t) == Some(s.(sm := SFirst(Succ(a))));
      FirstOver(s0, s.(sm := SFirst(Succ(a))), n - 1);
    } else {
      assert s == s.(sm := SFirst(After(a, 0)));
    }
  }

  /** The second scan, before it comes to `end`. */
  lemma {:induction false} SecondOver(s0: Ring, s: Ring, n: nat)
    requires Leads(s0, s) && WellFormed(s.q) && s.sm.SSecond? && s.sm.i < MESSAGE_BUFFER_SIZE && n < MESSAGE_BUFFER_SIZE
    requires EmptyFrom(s.q, s.sm.i, n) && Avoids(s.sm.i, n, s.q.end)
    ensures Leads(s0, s.(sm := SSecond(After(s.sm.i, n))))
    decreases n
  {
    hide Leads, EmptyFrom, Avoids;
    var a := s.sm.i;
    if n > 0 {
      NextEmpty(s.q, a, n);
      NextAvoids(a, n, s.q.end);
      Onward(s0, s, DoSLook2);
      assert SLook2(s) == Some(s.(sm := SSecond(Succ(a))));
      SecondOver(s0, s.(sm := SSecond(Succ(a))), n - 1);
    } else {
      assert s == s.(sm := SSecond(After(a, 0)));
    }
  }

  /** The scan of a receiver's queue, before it comes to `end`. */
  lemma {:induction false} ThirdOver(s0: Ring, s: Ring, n: nat)
    requires Leads(s0, s) && WellFormed(s.q) && s.rm.RScan? && s.rm.i < MESSAGE_BUFFER_SIZE && n < MESSAGE_BUFFER_SIZE
    requires EmptyFrom(s.q, s.rm.i, n) && Avoids(s.rm.i, n, s.q.end)
    ensures Leads(s0, s.(rm := RScan(After(s.rm.i, n))))
    decreases n
  {
    hide Leads, EmptyFrom, Avoids;
    var a := s.rm.i;
    if n > 0 {
      NextEmpty(s.q, a, n);
      NextAvoids(a, n, s.q.end);
      Onward(s0, s, DoRLook);
      assert RLook(s) == Some(s.(rm := RScan(Succ(a))));
      ThirdOver(s0, s.(rm := RScan(Succ(a))), n - 1);
    } else {
      assert s == s.(rm := RScan(After(a, 0)));
    }
  }

  // ----- the stray reference is released

  /** No slot holds anything, and the object's count is one too low for the references elsewhere. */
  ghost predicate Missing(s: Ring, o: Obj) {
    && WellFormed(s.q) && (forall j :: 0 <= j < MESSAGE_BUFFER_SIZE ==> s.q.buf[j] == 0)
    && Cnt(s, o) + 1 == s.ext[o] + LentCount(s, o) + TakenCount(s, o)
  }

  lemma TakeStray(s: Ring, i: nat, o: Obj, t: Ring)
    requires Stray(s, i, o) && t.q == Take(s.q, i) && t.cnt == Dec(s, o) && t.ext == s.ext
    requires LentCount(t, o) == LentCount(s, o) && TakenCount(t, o) == TakenCount(s, o)
    ensures Missing(t, o) && WellFormed(t.q) && t.q.start == s.q.start && t.q.end == s.q.end
  {
  }

  lemma StrayShape(s: Ring, i: nat, o: Obj)
    requires Stray(s, i, o)
    ensures WellFormed(s.q) && i < MESSAGE_BUFFER_SIZE && Succ(i) == s.q.end && o != 0 && s.q.buf[i] == o
  {
  }

  /** The receiver's side, which the monitor's scans of the sender's queue leave alone. */
  predicate SameReceiver(s: Ring, t: Ring) {
    && t.rp == s.rp && t.rm == s.rm && t.rlog == s.rlog && t.registered == s.registered
    && t.q.start == s.q.start && t.q.end == s.q.end
  }

  lemma FirstReleases(s0: Ring, s: Ring, i: nat, o: Obj) returns (t: Ring)
    requires Leads(s0, s) && Stray(s, i, o) && s.sm == SFirst(i) && s.q.start == s.q.end
    ensures Leads(s0, t) && Missing(t, o) && t.sm == SScanned(s.q.end) && SameReceiver(s, t)
  {
    hide Leads, Missing, Take, Stray;
    StrayShape(s, i, o);
    Onward(s0, s, DoSLook);
    var b := s.(sm := SFirstHold(i, o));
    Onward(s0, b, DoSRelease);
    var c := SRelease(b).value;
    t := c.(sm := SScanned(s.q.end));
    TakeStray(s, i, o, t);
    Onward(s0, c, DoSAgain);
  }

  /** If nothing is queued, the first scan goes round the whole ring. */
  lemma FirstFinds(s0: Ring, s: Ring, i: nat, o: Obj) returns (t: Ring)
    requires Leads(s0, s) && Stray(s, i, o) && s.sm == SFirst(s.q.end) && s.q.start == s.q.end
    ensures Leads(s0, t) && Missing(t, o) && t.sm == SScanned(s.q.end) && SameReceiver(s, t)
  {
    hide Leads, Missing;
    assert After(s.q.end, MESSAGE_BUFFER_SIZE - 1) == i;
    FirstOver(s0, s, MESSAGE_BUFFER_SIZE - 1);
    t := FirstReleases(s0, s.(sm := SFirst(i)), i, o);
  }

  /** Otherwise it does not come to the stray reference. */
  lemma FirstMisses(s0: Ring, s: Ring, i: nat, o: Obj) returns (t: Ring)
    requires Leads(s0, s) && Stray(s, i, o) && s.sm == SFirst(s.q.end) && s.q.start != s.q.end
    ensures Leads(s0, t) && t == s.(sm := SScanned(s.q.start))
  {
    var n: nat := Distance(s.q.end, s.q.start) - 1;
    var a := After(s.q.end, n);
    assert Succ(a) == s.q.start && a != i;
    FirstOver(s0, s, n);
    hide Leads;
    var b := s.(sm := SFirst(a));
    Onward(s0, b, DoSLook);
    var c := s.(sm := SNext(s.q.start));
    Onward(s0, c, DoSAgain);
    t := s.(sm := SScanned(s.q.start));
  }

  lemma SecondReleases(s0: Ring, s: Ring, i: nat, o: Obj) returns (t: Ring)
    requires Leads(s0, s) && Stray(s, i, o) && s.sm == SSecond(i)
    ensures Leads(s0, t) && Missing(t, o) && t.sm.SGone? && SameReceiver(s, t)
  {
    hide Leads, Missing, Take, Stray;
    StrayShape(s, i, o);
    Onward(s0, s, DoSLook2);
    var b := s.(sm := SSecondHold(i, o));
    Onward(s0, b, DoSRelease2);
    var c := SRelease2(b).value;
    t := c.(sm := SGone);
    TakeStray(s, i, o, t);
    Onward(s0, c, DoSLook2);
  }

  lemma SecondFinds(s0: Ring, s: Ring, i: nat, o: Obj) returns (t: Ring)
    requires Leads(s0, s) && Stray(s, i, o) && s.sm == SSecond(s.q.start) && s.q.start != s.q.end
    ensures Leads(s0, t) && Missing(t, o) && t.sm.SGone? && SameReceiver(s, t)
  {
    hide Leads, Missing;
    SecondOver(s0, s, Distance(s.q.start, i));
    t := SecondReleases(s0, s.(sm := SSecond(i)), i, o);
  }

  lemma ThirdReleases(s0: Ring, s: Ring, i: nat, o: Obj) returns (t: Ring)
    requires Leads(s0, s) && Stray(s, i, o) && s.rm == RScan(i) && s.sm.SGone? && s.rp.RIdle?
    ensures Leads(s0, t) && Missing(t, o) && t.sm.SGone? && t.rm.RNone? && t.rp.RIdle?
  {
    hide Leads, Missing, Take, Stray;
    StrayShape(s, i, o);
    Onward(s0, s, DoRLook);
    var b := s.(rm := RHold(i, o));
    Onward(s0, b, DoRRelease);
    var c := RRelease(b).value;
    t := c.(rm := RNone, registered := false);
    TakeStray(s, i, o, t);
    Onward(s0, c, DoRLook);
  }

  lemma ThirdFinds(s0: Ring, s: Ring, i: nat, o: Obj) returns (t: Ring)
    requires Leads(s0, s) && Stray(s, i, o) && s.rm == RScan(s.q.start) && s.q.start != s.q.end && s.sm.SGone?
             && s.rp.RIdle?
    ensures Leads(s0, t) && Missing(t, o) && t.sm.SGone? && t.rm.RNone? && t.rp.RIdle?
  {
    hide Leads, Missing;
    ThirdOver(s0, s, Distance(s.q.start, i));
    t := ThirdReleases(s0, s.(rm := RScan(i)), i, o);
  }

  lemma ThirdFindsNothing(s0: Ring, s: Ring, o: Obj) returns (t: Ring)
    requires Leads(s0, s) && Missing(s, o) && s.rm == RScan(s.q.start) && s.sm.SGone? && s.rp.RIdle?
    ensures Leads(s0, t) && Missing(t, o) && t.sm.SGone? && t.rm.RNone? && t.rp.RIdle?
  {
    var n := Distance(s.q.start, s.q.end);
    ThirdOver(s0, s, n);
    hide Leads;
    var a := s.(rm := RScan(s.q.end));
    Onward(s0, a, DoRLook);
    t := a.(rm := RNone, registered := false);
  }

  // ----- the receiver stops and is recovered

  lemma Stop(s0: Ring, s: Ring) returns (t: Ring)
    requires Leads(s0, s) && s.rm.RUp? && s.rp.RIdle?
    ensures Leads(s0, t) && t == s.(rm := RDown, rlog := NoLog)
  {
    hide Leads;
    Onward(s0, s, DoROther);
    Onward(s0, s.(rlog := NoLog), DoRCrash);
    t := s.(rm := RDown, rlog := NoLog);
  }

  lemma RetireStray(s0: Ring, s: Ring, i: nat, o: Obj) returns (t: Ring)
    requires Leads(s0, s) && Stray(s, i, o) && s.sm.SGone? && s.q.start != s.q.end && s.rp.RIdle?
    requires s.rm.RUp? || (s.rm.RDown? && (s.rlog.Logged? ==> s.rlog.slot != i && s.rlog.obj == 0))
    ensures Leads(s0, t) && Missing(t, o) && t.sm.SGone? && t.rm.RNone? && t.rp.RIdle?
  {
    hide Leads;
    var a := s;
    if s.rm.RUp? {
      a := Stop(s0, s);
    }
    Onward(s0, a, DoRReplay);
    var b := RReplay(a).value;
    assert b.q.buf == a.q.buf;
    Onward(s0, b, DoRBegin);
    t := ThirdFinds(s0, RBegin(b).value, i, o);
  }

  lemma RetireEmpty(s0: Ring, s: Ring, o: Obj) returns (t: Ring)
    requires Leads(s0, s) && Missing(s, o) && s.sm.SGone? && !ReceiverScanning(s)
    requires (s.rlog.Logged? ==> s.rlog.obj == 0) && (s.rm.RNone? ==> s.rp.RIdle?)
    ensures Leads(s0, t) && Missing(t, o) && t.sm.SGone? && t.rm.RNone? && t.rp.RIdle?
  {
    hide Leads;
    t := s;
    if !s.rm.RNone? {
      var a := s;
      if !s.rm.RDown? {
        Onward(s0, s, DoRCrash);
        a := RCrash(s).value;
      }
      Onward(s0, a, DoRReplay);
      var b := RReplay(a).value;
      assert b.q.buf == a.q.buf;
      Onward(s0, b, DoRBegin);
      t := ThirdFindsNothing(s0, RBegin(b).value, o);
    }
  }

  // ----- the outcome

  /** The receiver stopped as well, and its newest record is that it emptied this very slot, which is still
      counted as queued. */
  predicate Cancelled(s: Ring) {
    s.q.start != s.q.end && s.registered && s.rm.RDown? && s.rlog.Logged? && s.slog.Logged?
        && s.rlog.slot == s.slog.slot
  }

  /** From the replay on: the sender is recovered, and no receiver is left. */
  lemma Doom(s0: Ring, s: Ring, i: nat, o: Obj) returns (t: Ring)
    requires Leads(s0, s) && Stray(s, i, o) && s.sm.SReplayed? && !ReceiverScanning(s)
    requires (s.rlog.Logged? ==> s.rlog.obj == 0) && s.rp.RIdle?
    requires s.q.start != s.q.end && s.registered ==>
               s.rm.RUp? || (s.rm.RDown? && (s.rlog.Logged? ==> s.rlog.slot != i))
    ensures Leads(s0, t) && Missing(t, o) && t.sm.SGone? && t.rm.RNone? && t.rp.RIdle?
  {
    Onward(s0, s, DoSBegin);
    var a := SBegin(s).value;
    assert Stray(a, i, o);
    hide Leads, Missing;
    if s.q.start == s.q.end {
      var b := FirstFinds(s0, a, i, o);
      var c := Leave(s0, b, o);
      t := RetireEmpty(s0, c, o);
    } else {
      var b := FirstMisses(s0, a, i, o);
      Onward(s0, b, DoSReadId);
      var c := SReadId(b).value;
      if s.registered {
        t := RetireStray(s0, c, i, o);
      } else {
        var d := SecondFinds(s0, c, i, o);
        t := RetireEmpty(s0, d, o);
      }
    }
  }

  /** Nothing is queued: whether or not a receiver is registered, the sender's recovery is over. */
  lemma Leave(s0: Ring, s: Ring, o: Obj) returns (t: Ring)
    requires Leads(s0, s) && Missing(s, o) && s.sm == SScanned(s.q.end)
    ensures Leads(s0, t) && Missing(t, o) && t.sm.SGone? && SameReceiver(s, t)
  {
    Onward(s0, s, DoSReadId);
    hide Leads;
    if !s.registered {
      Onward(s0, s.(sm := SSecond(s.q.end)), DoSLook2);
    }
    t := s.(sm := SGone);
  }

  /** An outdated record is fatal: from every reachable state in which it is about to be replayed, unless the
      receiver's record cancels it, some continuation ends with both sides recovered, the ring empty, and the
      object's count one below the references that are left. */
  lemma OutdatedIsFatal(run: seq<Action>) returns (more: seq<Action>)
    requires Run(run) && SReplay(Reached(run)).Some? && Outdated(Reached(run)) && !Cancelled(Reached(run))
    ensures var o := Reached(run).slog.obj;
            && Final(Reached(run), more).Some?
            && var t := Final(Reached(run), more).value;
               t.sm.SGone? && t.rm.RNone? && (forall j :: 0 <= j < |t.q.buf| ==> t.q.buf[j] == 0)
                   && Cnt(t, o) + 1 == t.ext[o]
  {
    var s := Reached(run);
    ReplayExact(run);
    ReachedInv(run);
    var u := SReplay(s).value;
    hide Next, Stray, Missing, Inv, Outdated, Cancelled, SReplay;
    var t := Doomed(s);
    var rest :| Final(u, rest).Some? && Polite(u, rest) && Final(u, rest).value == t;
    more := [DoSReplay] + rest;
    assert more[0] == DoSReplay && more[1..] == rest;
    NextReplay(s);
    MissingAll(t, s.slog.obj);
  }

  lemma NextReplay(s: Ring)
    ensures Next(s, DoSReplay) == SReplay(s)
  {
  }

  lemma MissingAll(t: Ring, o: Obj)
    requires Missing(t, o) && t.sm.SGone? && t.rp.RIdle?
    ensures (forall j :: 0 <= j < |t.q.buf| ==> t.q.buf[j] == 0) && Cnt(t, o) + 1 == t.ext[o]
  {
  }

  lemma Doomed(s: Ring) returns (t: Ring)
    requires Inv(s) && SReplay(s).Some? && Outdated(s) && !Cancelled(s)
             && Stray(SReplay(s).value, s.slog.slot, s.slog.obj)
    requires s.q.start == s.q.end ==> s.rp.RIdle?
    requires s.q.start != s.q.end && !s.rp.RIdle? ==> s.rp.RUnlinked? && s.q.start == s.slog.slot
    ensures Leads(SReplay(s).value, t) && Missing(t, s.slog.obj) && t.sm.SGone? && t.rm.RNone? && t.rp.RIdle?
  {
    hide QueueOk, SendOk, Counted, Leads, Stray, Missing, SenderOk;
    var i, o, u := s.slog.slot, s.slog.obj, SReplay(s).value;
    Here(u);
    if s.rp.RIdle? {
      t := Doom(u, u, i, o);
    } else {
      t := LastStep(u, i, o);
      t := Doom(u, t, i, o);
    }
  }

  /** A receiver up to its last step makes it. */
  lemma LastStep(s: Ring, i: nat, o: Obj) returns (t: Ring)
    requires Stray(s, i, o) && s.sm.SReplayed? && s.rm.RUp? && s.rp.RUnlinked? && s.q.start == i
    requires s.rlog.Logged? ==> s.rlog.obj == 0
    ensures Leads(s, t) && Stray(t, i, o) && t.sm.SReplayed? && t.rm.RUp? && t.rp.RIdle? && t.q.start == t.q.end
    ensures t.rlog == s.rlog
  {
    Here(s);
    Onward(s, s, DoR3);
    t := R3(s).value;
  }

  // ----- two records that cancel

  /** The state as it would be without the reference that was put back into slot i. */
  function Without(s: Ring, i: nat): Ring
    requires i < |s.q.buf|
  {
    s.(q := s.q.(buf := s.q.buf[i := 0]))
  }

  /** The sender is being recovered, and the receiver waits for it. */
  predicate Waits(s: Ring, i: nat) {
    && WellFormed(s.q) && i < MESSAGE_BUFFER_SIZE && Token(s.q, i) < |s.q.sent|
    && s.registered && s.rm.RDown? && s.rlog == Logged(i, 0)
    && (s.sm.SReplayed? || s.sm.SFirst? || s.sm.SFirstHold? || s.sm.SNext? || s.sm.SScanned? || s.sm.SGone?)
  }

  /** The stray reference is in a queued slot; but for it everything is in order. */
  ghost predicate Pent(s: Ring, i: nat) {
    Waits(s, i) && Inv(Without(s, i))
  }

  predicate WaitingAction(a: Action) {
    a.DoAcquire? || a.DoDrop? || a.DoSBegin? || a.DoSLook? || a.DoSRelease? || a.DoSAgain? || a.DoSReadId?
  }

  lemma OnlyThese(s: Ring, i: nat, a: Action)
    requires Waits(s, i) && Next(s, a).Some? && !a.DoRReplay?
    ensures WaitingAction(a) && !Rough(Without(s, i), a)
  {
  }

  lemma SameScan(s: Ring, i: nat, a: Action)
    requires Waits(s, i) && Next(s, a).Some? && (a.DoSLook? || a.DoSRelease?)
    requires s.sm.SFirst? || s.sm.SFirstHold? ==> s.sm.i != i
    ensures Waits(Next(s, a).value, i) && Next(Without(s, i), a) == Some(Without(Next(s, a).value, i))
  {
    if a.DoSRelease? {
      assert s.q.buf[i := 0][s.sm.i := 0] == s.q.buf[s.sm.i := 0][i := 0];
    }
  }

  lemma SameOther(s: Ring, i: nat, a: Action)
    requires Waits(s, i) && Next(s, a).Some? && WaitingAction(a) && !a.DoSLook? && !a.DoSRelease?
    ensures Waits(Next(s, a).value, i) && Next(Without(s, i), a) == Some(Without(Next(s, a).value, i))
  {
  }

  /** A step that does not look at slot i does not notice what is there. */
  lemma SameStep(s: Ring, i: nat, a: Action)
    requires Waits(s, i) && Next(s, a).Some? && !a.DoRReplay? && (s.sm.SFirst? || s.sm.SFirstHold? ==> s.sm.i != i)
    ensures Waits(Next(s, a).value, i) && Next(Without(s, i), a) == Some(Without(Next(s, a).value, i))
    ensures !Rough(Without(s, i), a)
  {
    hide Next, Waits, Without, Rough;
    OnlyThese(s, i, a);
    if a.DoSLook? || a.DoSRelease? {
      SameScan(s, i, a);
    } else {
      SameOther(s, i, a);
    }
  }

  /** The recovery of the sender does not come to that slot. */
  lemma PentStep(s: Ring, i: nat, a: Action)
    requires Pent(s, i) && Next(s, a).Some? && !a.DoRReplay?
    ensures Pent(Next(s, a).value, i)
  {
    hide Counted, Contents, ReleasedOnce, Next, Rough;
    EndSlot(Without(s, i).q, Pending(s.sp));
    SameStep(s, i, a);
    hide Inv, Waits;
    Keep(Without(s, i), a);
  }

  lemma {:induction false} PentRun(s: Ring, i: nat, run: seq<Action>)
    requires Pent(s, i) && Final(s, run).Some? && DoRReplay !in run
    ensures Pent(Final(s, run).value, i)
    decreases |run|
  {
    hide Pent, Next;
    if run != [] {
      assert run[0] in run;
      PentStep(s, i, run[0]);
      PentRun(Next(s, run[0]).value, i, run[1..]);
    }
  }

  lemma PentReplay(s: Ring, i: nat)
    requires Pent(s, i) && RReplay(s).Some?
    ensures Inv(RReplay(s).value)
  {
    var v := Without(s, i);
    hide Inv;
    KeepRReplay(v);
    assert v.q.buf[i := 0] == v.q.buf;
    assert s.q.buf[i := 0] == v.q.buf;
    assert RReplay(s).value == RReplay(v).value;
  }

  /** If the receiver's record is of the same slot, the two replays cancel: whatever happens in between, the
      replay of the receiver's record restores the invariant, and the counts with it. */
  lemma ReplaysCancel(run: seq<Action>, more: seq<Action>)
    requires Run(run) && SReplay(Reached(run)).Some? && Outdated(Reached(run)) && Cancelled(Reached(run))
    requires Final(SReplay(Reached(run)).value, more).Some? && DoRReplay !in more
    ensures var t := Final(SReplay(Reached(run)).value, more).value;
            t.rm.RDown? && (RReplay(t).Some? ==> Inv(RReplay(t).value) && Counted(RReplay(t).value))
  {
    hide *;
    ReachedPent(run);
    var s := Reached(run);
    var i, t := s.slog.slot, Final(SReplay(s).value, more).value;
    PentRun(SReplay(s).value, i, more);
    PentDown(t, i);
    if RReplay(t).Some? {
      PentReplay(t, i);
      InvCounted(RReplay(t).value);
    }
  }

  lemma ReachedPent(run: seq<Action>)
    requires Run(run) && SReplay(Reached(run)).Some? && Outdated(Reached(run)) && Cancelled(Reached(run))
    ensures Reached(run).slog.Logged? && Pent(SReplay(Reached(run)).value, Reached(run).slog.slot)
  {
    hide *;
    var s := Reached(run);
    ReachedInv(run);
    ReachedInOrder(run);
    Prepared(s);
    CancelledLog(s);
    WhenOutdated(s);
    WillBePent(s);
  }

  lemma CancelledLog(s: Ring)
    requires Cancelled(s)
    ensures s.slog.Logged? && s.q.start != s.q.end
  {
  }

  lemma Prepared(s: Ring)
    requires SReplay(s).Some?
    ensures Alone(s)
  {
  }

  lemma PentDown(s: Ring, i: nat)
    requires Pent(s, i)
    ensures s.rm.RDown?
  {
  }

  lemma InvCounted(s: Ring)
    requires Inv(s)
    ensures Counted(s)
  {
  }

  lemma WillBePent(s: Ring)
    requires Inv(s) && SReplay(s).Some? && Outdated(s) && Cancelled(s) && WellFormed(s.q)
    requires s.slog.slot < MESSAGE_BUFFER_SIZE && forall j :: 0 <= j < MESSAGE_BUFFER_SIZE ==> s.q.buf[j] == 0
    ensures Pent(SReplay(s).value, s.slog.slot)
  {
    var i, u := s.slog.slot, SReplay(s).value;
    assert u.q.buf[i := 0] == s.q.buf;
    assert Without(u, i) == s.(sm := SReplayed);
    hide QueueOk, Counted, SendOk, ReceiveOk;
    QueuedSlot(s);
  }

  lemma QueuedSlot(s: Ring)
    requires Inv(s) && s.sm.SDown? && s.slog.Logged? && Outdated(s) && s.q.start != s.q.end && !s.sp.SLinked?
    ensures Token(s.q, s.slog.slot) < |s.q.sent|
  {
  }
}

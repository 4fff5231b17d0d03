/** Slot write, bump, release, allocation and replay keep the invariant. */
module RefFinish {
  import opened RefTypes
  import opened RefMachine
  import opened RefInvariant
  import opened RefSteps
  import opened RefOpen
  import opened RefUpdates

  // ----- the slot write, by the client or by the monitor

  function SlotWritten(s: State, i: Tid, t': Thread): State
    requires i in s.th
  {
    SetThread(s, i, t').(slots := s.slots[s.th[i].dst := Goal(s.th[i])])
  }

  /** The committed operation moves on, keeping its stamp. */
  predicate Completes(t: Thread, t': Thread) {
    && Done(t) && t' == t.(pc := t'.pc, mon := t'.mon)
    && (t'.pc.Written? || (t'.pc.Finished? && t'.mon.Recovered?))
    && (t'.mon.Recovered? ==> t'.pc.Finished?)
    && (t.mon.Sweep? || t'.mon.Sweep? ==> t'.mon == t.mon)
  }

  lemma SlotEff(s: State, i: Tid, t': Thread)
    requires EffOk(s) && Exclusive(s) && i in s.th && Completes(s.th[i], t') && OpOk(s, s.th[i])
    ensures EffOk(SlotWritten(s, i, t'))
  {
    var t, s' := s.th[i], SlotWritten(s, i, t');
    forall r | r in s'.slots && r in s'.eff && s'.eff[r] != s'.slots[r]
      ensures exists j :: j in s'.th && Pending(s'.th[j]) && s'.th[j].dst == r
    {
      var j :| j in s.th && Pending(s.th[j]) && s.th[j].dst == r;
      assert j in s'.th.Keys && Pending(s'.th[j]) && s'.th[j].dst == r;
    }
  }

  lemma SlotRely(s: State, i: Tid, t': Thread, j: Tid)
    requires Shape(s) && i in s.th && j in s.th && i != j && Completes(s.th[i], t')
    requires s.th[i].dst in s.slots && Apart(s.th[i], s.th[j])
    ensures Rely(s, SlotWritten(s, i, t'), j, s.th[j])
  {
  }

  lemma SlotOwn(s: State, i: Tid, t': Thread)
    requires i in s.th && Completes(s.th[i], t') && ThreadOk(s, i, s.th[i])
    requires t'.mon.Up? || t'.mon.Recovered? || t'.mon.Sweep?
    ensures ThreadOk(SlotWritten(s, i, t'), i, t')
  {
    hide Newest;
    var t, s' := s.th[i], SlotWritten(s, i, t');
    assert Own(s', i) == Own(s, i);
    if !t.mon.Sweep? && !Carries(s, i, t.obj, Own(s, i)) {
      var j :| SeenBy(s, j, i, Own(s, i));
      assert SeenBy(s', j, i, Own(s', i));
    }
    forall k | 0 <= k < |t'.logs| ensures LogShape(s', t'.logs[k]) {
      assert LogShape(s, t.logs[k]);
    }
    forall k | 0 <= k < |t'.logs| && t'.logs[k].era == Own(s', i) && !t'.mon.Sweep? ensures CurrentLog(t', t'.logs[k]) {
      assert CurrentLog(t, t.logs[k]);
    }
  }

  lemma SlotShape(s: State, i: Tid, t': Thread)
    requires Shape(s) && i in s.th && Completes(s.th[i], t') && ShapeT(s, s.th[i]) && s.th[i].dst in s.slots
    ensures Shape(SlotWritten(s, i, t'))
  {
  }

  lemma SlotStep(s: State, i: Tid, t': Thread)
    requires Inv(s) && i in s.th && Completes(s.th[i], t')
    requires t'.mon.Up? || t'.mon.Recovered? || t'.mon.Sweep?
    ensures Inv(SlotWritten(s, i, t'))
  {
    hide Shape, EffOk, Exclusive, CountOk, PoolOk, StampsOk, RowsOk, PubOk, OpOk, LogOk, MonOk, CommitOk, RegOk,
         ReleaseOk, ShapeT, Rely, Newest;
    var s' := SlotWritten(s, i, t');
    assert ThreadOk(s, i, s.th[i]);
    CasDst(s, s.th[i]);
    SlotShape(s, i, t');
    SlotEff(s, i, t');
    ExclusiveFrame(s, s', i);
    ErasFrame(s, s', i);
    CountFrame(s, s');
    PoolFrame(s, s');
    SlotOwn(s, i, t');
    forall j | j in s.th && j != i ensures Rely(s, s', j, s.th[j]) {
      assert Apart(s.th[i], s.th[j]) by { TwoApart(s, i, j); }
      SlotRely(s, i, t', j);
    }
    Compose(s, s', i);
  }

  lemma KeepWriteSlot(s: State, i: Tid)
    requires Inv(s) && CanWriteSlot(s, i)
    ensures Inv(DoWriteSlot(s, i))
  {
    hide Inv;
    SlotStep(s, i, s.th[i].(pc := Written));
  }

  // ----- the era bump

  function Bumped(s: State, i: Tid, t': Thread): State {
    SetThread(s, i, t').(era := BumpEra(s.era, i))
  }

  predicate Closes(t: Thread, t': Thread) {
    && t' == t.(pc := t'.pc, mon := AfterBump(t.mon)) && (t.mon.Up? || t.mon.Sweep?)
    && ((t.pc.Written? && t'.pc == (if !t.func.LinkRef? && t.reg.cnt == 1 then FreeDue else Idle))
        || (t.pc.AllocLinked? && t'.pc.AllocBumped? && t.mon.Up?))
  }

  lemma BumpEras(s: State, i: Tid, t': Thread)
    requires StampsOk(s) && RowsOk(s) && PubOk(s) && i in s.th && Closes(s.th[i], t')
    ensures var s' := Bumped(s, i, t'); StampsOk(s') && RowsOk(s') && PubOk(s')
  {
    var s' := Bumped(s, i, t');
    assert Own(s', i) == Own(s, i) + 1;
    assert forall c: Tid :: c != i ==> Own(s', c) == Own(s, c);
    assert forall c :: c in s.th <==> c in s'.th.Keys;
    forall o | o in s'.words ensures StampOk(s', o, s'.words[o]) {
      assert StampOk(s, o, s.words[o]);
    }
    forall j, c ensures RowOk(s', j, c) {
      assert RowOk(s, j, c);
    }
  }

  lemma BumpRely(s: State, i: Tid, t': Thread, j: Tid)
    requires Shape(s) && i in s.th && j in s.th && i != j && Closes(s.th[i], t')
    ensures Rely(s, Bumped(s, i, t'), j, s.th[j])
  {
    var s' := Bumped(s, i, t');
    assert Own(s', i) == Own(s, i) + 1;
    assert forall c: Tid :: c != i ==> Own(s', c) == Own(s, c);
  }

  lemma BumpOwn(s: State, i: Tid, t': Thread)
    requires i in s.th && Closes(s.th[i], t') && ThreadOk(s, i, s.th[i]) && PubOk(s) && Own(s, i) > 0
    ensures ThreadOk(Bumped(s, i, t'), i, t')
  {
    hide Newest;
    var t, s' := s.th[i], Bumped(s, i, t');
    assert Own(s', i) == Own(s, i) + 1;
    forall k | 0 <= k < |t'.logs| ensures LogShape(s', t'.logs[k]) {
      assert LogShape(s, t.logs[k]);
    }
    if (i, Own(s, i)) in s.pub {
      assert Published(t);
    }
  }

  lemma BumpStep(s: State, i: Tid, t': Thread)
    requires Inv(s) && i in s.th && Closes(s.th[i], t')
    ensures Inv(Bumped(s, i, t'))
  {
    hide EffOk, Exclusive, CountOk, PoolOk, StampsOk, PubOk, RowOk, OpOk, LogOk, MonOk, CommitOk, RegOk, ReleaseOk,
         ShapeT, Rely, Newest;
    var s' := Bumped(s, i, t');
    assert ThreadOk(s, i, s.th[i]);
    EffFrame(s, s', i);
    ExclusiveFrame(s, s', i);
    BumpEras(s, i, t');
    CountFrame(s, s');
    PoolFrame(s, s');
    BumpOwn(s, i, t');
    forall j | j in s.th && j != i ensures Rely(s, s', j, s.th[j]) {
      BumpRely(s, i, t', j);
    }
    Compose(s, s', i);
  }

  lemma KeepBump(s: State, i: Tid)
    requires Inv(s) && CanBump(s, i)
    ensures Inv(DoBump(s, i))
  {
    hide Inv;
    BumpStep(s, i, DoBump(s, i).th[i]);
  }

  lemma KeepAllocBump(s: State, i: Tid)
    requires Inv(s) && CanAllocBump(s, i)
    ensures Inv(DoAllocBump(s, i))
  {
    hide Inv;
    BumpStep(s, i, DoAllocBump(s, i).th[i]);
  }

  // ----- release of a dead object

  /** The word of an object without count may be rewritten: no other client depends on it. */
  lemma WordRely(s: State, s': State, i: Tid, o: Obj, j: Tid)
    requires Shape(s) && i in s.th && j in s.th && i != j && Stepped(s, s', i)
    requires RelyFrame(s, s') && RelySlots(s, s', s.th[j]) && RelyEras(s, s', j)
    requires forall x :: x in s.words && x != o ==> x in s'.words && s'.words[x] == s.words[x]
    requires forall x :: x in s.ver && x != o ==> x in s'.ver && s'.ver[x] == s.ver[x]
    requires o in s.words && o in s'.words && s'.words[o].cid != j && s.words[o].cid != j
    requires forall x :: x != o && x !in s.pool ==> x !in s'.pool
    requires Responsible(s.th[j]) || Trying(s.th[j]) ==> s.th[j].obj != o
    ensures Rely(s, s', j, s.th[j])
  {
    var u := s.th[j];
    if Published(u) && Carries(s, j, u.obj, Own(s, j)) && u.obj in s'.words {
      assert Carries(s', j, u.obj, Own(s, j));
    }
  }

  lemma FreeCount(s: State, i: Tid)
    requires CanFree(s, i) && CountOk(s) && PoolOk(s) && s.words[s.th[i].obj].cnt == 0
    ensures CountOk(DoFree(s, i)) && PoolOk(DoFree(s, i))
  {
  }

  lemma FreeOwn(s: State, i: Tid)
    requires CanFree(s, i) && ThreadOk(s, i, s.th[i])
    ensures ThreadOk(DoFree(s, i), i, DoFree(s, i).th[i])
  {
    hide Newest;
    var t, s' := s.th[i], DoFree(s, i);
    assert Own(s', i) == Own(s, i);
    forall k | 0 <= k < |t.logs| ensures LogShape(s', t.logs[k]) {
      assert LogShape(s, t.logs[k]);
    }
  }

  lemma NotInUse(s: State, i: Tid, j: Tid)
    requires Inv(s) && i in s.th && j in s.th && i != j && Responsible(s.th[i])
    ensures Responsible(s.th[j]) || Trying(s.th[j]) ==> s.th[j].obj != s.th[i].obj
  {
    hide EffOk, Exclusive, CountOk, PoolOk, StampsOk, RowsOk, PubOk, ThreadsOk;
    if Trying(s.th[j]) {
      NoReleaser(s, j, i);
    }
    TwoApart(s, i, j);
  }

  lemma FreeRely(s: State, i: Tid, j: Tid)
    requires Inv(s) && CanFree(s, i) && j in s.th && i != j
    ensures Rely(s, DoFree(s, i), j, s.th[j])
  {
    hide EffOk, Exclusive, CountOk, PoolOk, StampsOk, PubOk, RowsOk, OpOk, LogOk, MonOk, CommitOk, RegOk, Rely,
         Newest, RelyWords;
    var s' := DoFree(s, i);
    NotInUse(s, i, j);
    assert ThreadOk(s, i, s.th[i]);
    assert forall c :: Own(s', c) == Own(s, c);
    WordRely(s, s', i, s.th[i].obj, j);
  }

  lemma KeepFree(s: State, i: Tid)
    requires Inv(s) && CanFree(s, i)
    ensures Inv(DoFree(s, i))
  {
    hide EffOk, CountOk, PoolOk, StampsOk, PubOk, RowsOk, OpOk, LogOk, MonOk, CommitOk, RegOk, ShapeT, Rely, Newest;
    var t, s' := s.th[i], DoFree(s, i);
    assert ThreadOk(s, i, t);
    EffFrame(s, s', i);
    ExclusiveFrame(s, s', i);
    WordEras(s, s', i, t.obj);
    FreeCount(s, i);
    FreeOwn(s, i);
    forall j | j in s.th && j != i ensures Rely(s, s', j, s.th[j]) {
      FreeRely(s, i, j);
    }
    Compose(s, s', i);
  }

  // ----- allocation

  lemma AllocSlots(s: State, i: Tid, dst: Slot, o: Obj)
    requires CanBeginAlloc(s, i, dst, o) && EffOk(s)
    ensures EffOk(DoBeginAlloc(s, i, dst, o))
  {
    var s' := DoBeginAlloc(s, i, dst, o);
    forall r | r in s'.slots && r in s'.eff && s'.eff[r] != s'.slots[r]
      ensures exists j :: j in s'.th && Pending(s'.th[j]) && s'.th[j].dst == r
    {
      if r == dst {
        assert Pending(s'.th[i]);
      } else {
        var j :| j in s.th && Pending(s.th[j]) && s.th[j].dst == r;
        assert j in s'.th.Keys && Pending(s'.th[j]) && s'.th[j].dst == r;
      }
    }
  }

  lemma AllocExclusive(s: State, i: Tid, dst: Slot, o: Obj)
    requires CanBeginAlloc(s, i, dst, o) && Exclusive(s)
    requires forall j :: j in s.th && Responsible(s.th[j]) ==> s.th[j].obj != o
    ensures Exclusive(DoBeginAlloc(s, i, dst, o))
  {
    var s' := DoBeginAlloc(s, i, dst, o);
    forall j, k | j in s'.th && k in s'.th && j != k ensures Apart(s'.th[j], s'.th[k]) {
      assert j in s.th.Keys && k in s.th.Keys;
      assert Apart(s.th[j], s.th[k]);
    }
  }

  lemma AllocRely(s: State, i: Tid, dst: Slot, o: Obj, j: Tid)
    requires CanBeginAlloc(s, i, dst, o) && Shape(s) && j in s.th && j != i
    ensures Rely(s, DoBeginAlloc(s, i, dst, o), j, s.th[j])
  {
    assert !(Active(s.th[j]) && s.th[j].dst == dst);
    assert !(UsesSrc(s.th[j]) && s.th[j].src == dst);
  }

  lemma AllocOwn(s: State, i: Tid, dst: Slot, o: Obj)
    requires CanBeginAlloc(s, i, dst, o) && ThreadOk(s, i, s.th[i]) && dst in s.eff
    requires s.eff[dst] == s.slots[dst] && s.words[o] == ZeroWord && o in s.ver
    ensures var s' := DoBeginAlloc(s, i, dst, o); ThreadOk(s', i, s'.th[i])
  {
    hide Newest, Available, NotLinkedFrom;
    var t, s' := s.th[i], DoBeginAlloc(s, i, dst, o);
    assert Own(s', i) == Own(s, i);
    forall k | 0 <= k < |t.logs| ensures LogShape(s', t.logs[k]) {
      assert LogShape(s, t.logs[k]);
    }
  }

  lemma KeepBeginAlloc(s: State, i: Tid, dst: Slot, o: Obj)
    requires Inv(s) && CanBeginAlloc(s, i, dst, o)
    ensures Inv(DoBeginAlloc(s, i, dst, o))
  {
    hide EffOk, CountOk, Exclusive, StampsOk, PubOk, RowsOk, OpOk, LogOk, MonOk, CommitOk, RegOk, ShapeT, Rely,
         Newest, Available, NotLinkedFrom;
    var t, s' := s.th[i], DoBeginAlloc(s, i, dst, o);
    assert ThreadOk(s, i, t);
    Settled(s, dst);
    forall j | j in s.th && Responsible(s.th[j]) ensures s.th[j].obj != o {
      assert ThreadOk(s, j, s.th[j]);
    }
    AllocSlots(s, i, dst, o);
    AllocExclusive(s, i, dst, o);
    ErasFrame(s, s', i);
    CountFrame(s, s');
    PoolFrame(s, s');
    AllocOwn(s, i, dst, o);
    forall j | j in s.th && j != i ensures Rely(s, s', j, s.th[j]) {
      AllocRely(s, i, dst, o, j);
    }
    Compose(s, s', i);
  }

  lemma StampCount(s: State, i: Tid)
    requires CanAllocStamp(s, i) && CountOk(s) && PoolOk(s) && OpOk(s, s.th[i]) && 0 !in s.words
    requires s.words[s.th[i].obj].cnt == 0 && s.th[i].obj !in s.pool
    ensures CountOk(DoAllocStamp(s, i)) && PoolOk(DoAllocStamp(s, i))
  {
    var t, s' := s.th[i], DoAllocStamp(s, i);
    HoldersMove(s.eff, t.dst, t.obj);
    forall o | o in s'.words ensures s'.words[o].cnt == |Holders(s'.eff, o)| {
      assert o in s.words.Keys;
    }
  }

  lemma StampEff(s: State, i: Tid)
    requires CanAllocStamp(s, i) && EffOk(s) && OpOk(s, s.th[i])
    ensures EffOk(DoAllocStamp(s, i))
  {
    var s' := DoAllocStamp(s, i);
    forall r | r in s'.slots && r in s'.eff && s'.eff[r] != s'.slots[r]
      ensures exists j :: j in s'.th && Pending(s'.th[j]) && s'.th[j].dst == r
    {
      var j :| j in s.th && Pending(s.th[j]) && s.th[j].dst == r;
      assert j in s'.th.Keys && Pending(s'.th[j]) && s'.th[j].dst == r;
    }
  }

  lemma StampEras(s: State, i: Tid)
    requires CanAllocStamp(s, i) && i != 0 && StampsOk(s) && RowsOk(s) && PubOk(s)
    ensures var s' := DoAllocStamp(s, i); StampsOk(s') && RowsOk(s') && PubOk(s')
  {
    hide StampsOk, RowsOk, PubOk;
    var s' := DoAllocStamp(s, i);
    assert Own(s', i) == Own(s, i);
    WordEras(s, s', i, s.th[i].obj);
  }

  lemma StampOwn(s: State, i: Tid)
    requires CanAllocStamp(s, i) && ThreadOk(s, i, s.th[i])
    ensures var s' := DoAllocStamp(s, i); ThreadOk(s', i, s'.th[i])
  {
    hide Newest;
    var t, s' := s.th[i], DoAllocStamp(s, i);
    assert Own(s', i) == Own(s, i);
    forall k | 0 <= k < |t.logs| ensures LogShape(s', t.logs[k]) {
      assert LogShape(s, t.logs[k]);
    }
  }

  lemma StampRely(s: State, i: Tid, j: Tid)
    requires Inv(s) && CanAllocStamp(s, i) && j in s.th && i != j
    ensures Rely(s, DoAllocStamp(s, i), j, s.th[j])
  {
    hide EffOk, CountOk, PoolOk, StampsOk, PubOk, RowsOk, LogOk, MonOk, CommitOk, RegOk, Rely, Newest, RelyWords,
         Exclusive;
    var s' := DoAllocStamp(s, i);
    NotInUse(s, i, j);
    TwoApart(s, i, j);
    assert ThreadOk(s, i, s.th[i]);
    assert forall c :: Own(s', c) == Own(s, c);
    WordRely(s, s', i, s.th[i].obj, j);
  }

  lemma KeepAllocStamp(s: State, i: Tid)
    requires Inv(s) && CanAllocStamp(s, i)
    ensures Inv(DoAllocStamp(s, i))
  {
    hide EffOk, CountOk, PoolOk, StampsOk, PubOk, RowsOk, OpOk, LogOk, MonOk, CommitOk, RegOk, ShapeT, Rely, Newest;
    var t, s' := s.th[i], DoAllocStamp(s, i);
    assert ThreadOk(s, i, t);
    CasDst(s, t);
    StampEff(s, i);
    ExclusiveFrame(s, s', i);
    StampEras(s, i);
    StampCount(s, i);
    StampOwn(s, i);
    forall j | j in s.th && j != i ensures Rely(s, s', j, s.th[j]) {
      StampRely(s, i, j);
    }
    Compose(s, s', i);
  }

  // ----- the monitor's write

  /** The operation was not committed, or had been closed: the replay leaves the slots alone. */
  lemma AbandonStep(s: State, i: Tid)
    requires Inv(s) && i in s.th && s.th[i].mon.Decided? && !Done(s.th[i])
    ensures var t := s.th[i];
            Inv(SetThread(s, i, t.(pc := if Trying(t) then Aborted else t.pc, mon := Recovered)))
  {
    hide EffOk, Exclusive, CountOk, StampsOk, PubOk, RowsOk, RegOk, Rely, Newest, OpOk, CommitOk, ReleaseOk, ShapeT,
         LogOk, MonOk;
    var t := s.th[i];
    var t' := t.(pc := if Trying(t) then Aborted else t.pc, mon := Recovered);
    var s' := SetThread(s, i, t');
    assert ThreadOk(s, i, t);
    assert Own(s', i) == Own(s, i);
    EffFrame(s, s', i);
    ExclusiveFrame(s, s', i);
    ErasFrame(s, s', i);
    CountFrame(s, s');
    AbandonOwn(s, i);
    forall j | j in s.th && j != i ensures Rely(s, s', j, s.th[j]) {
      RegisterRely(s, i, t', j);
    }
    Compose(s, s', i);
  }

  lemma AbandonOwn(s: State, i: Tid)
    requires i in s.th && !Done(s.th[i]) && !s.th[i].mon.Sweep? && ThreadOk(s, i, s.th[i])
    ensures var t := s.th[i];
            var t' := t.(pc := if Trying(t) then Aborted else t.pc, mon := Recovered);
            ThreadOk(SetThread(s, i, t'), i, t')
  {
    hide Newest;
    var t := s.th[i];
    var t' := t.(pc := if Trying(t) then Aborted else t.pc, mon := Recovered);
    var s' := SetThread(s, i, t');
    assert Own(s', i) == Own(s, i);
    forall k | 0 <= k < |t.logs| ensures LogShape(s', t.logs[k]) {
      assert LogShape(s, t.logs[k]);
    }
    forall k | 0 <= k < |t'.logs| && t'.logs[k].era == Own(s', i) ensures CurrentLog(t', t'.logs[k]) {
      assert CurrentLog(t, t.logs[k]);
    }
    if Stamped(t) && !Carries(s, i, t.obj, Own(s, i)) {
      var j :| SeenBy(s, j, i, Own(s, i));
      assert SeenBy(s', j, i, Own(s', i));
    }
  }

  /** Between CAS and bump the newest record is the open operation's. */
  lemma DoneIsFresh(s: State, i: Tid)
    requires Inv(s) && i in s.th && Done(s.th[i]) && !s.th[i].mon.Sweep?
    ensures HasLogs(s, i) && FreshRec(s, i)
  {
    hide EffOk, Exclusive, CountOk, PoolOk, StampsOk, PubOk, RowsOk, RegOk, OpOk, MonOk, CommitOk, ReleaseOk, ShapeT,
         Newest;
    var t := s.th[i];
    assert ThreadOk(s, i, t);
    assert t.logs[Own(s, i) % REDO_CACHELINE_CNT] in t.logs;
  }

  lemma KeepReplay(s: State, i: Tid)
    requires Inv(s) && CanReplay(s, i) && (FreshRec(s, i) || !ReplayChanges(s, i))
    ensures Inv(DoReplay(s, i))
  {
    hide EffOk, Exclusive, CountOk, PoolOk, StampsOk, PubOk, RowsOk, RegOk, OpOk, CommitOk, ReleaseOk, ShapeT, LogOk,
         Newest;
    var t := s.th[i];
    assert ThreadOk(s, i, t);
    if Done(t) {
      DoneIsFresh(s, i);
      FreshRecord(s, i);
      assert Rec(t).func == t.func && !t.func.NoFunc? by { FuncKnown(s, t); }
      var t' := t.(pc := Finished, mon := Recovered);
      SlotStep(s, i, t');
      assert DoReplay(s, i) == SlotWritten(s, i, t');
    } else {
      AbandonStep(s, i);
      assert DoReplay(s, i).slots == s.slots;
    }
  }

  // ----- the monitor turns to the client's references

  lemma SweepEff(s: State, i: Tid)
    requires CanStartSweep(s, i) && EffOk(s) && OpOk(s, s.th[i]) && !Done(s.th[i])
    ensures EffOk(DoStartSweep(s, i))
  {
    var s' := DoStartSweep(s, i);
    forall r | r in s'.slots && r in s'.eff && s'.eff[r] != s'.slots[r]
      ensures exists j :: j in s'.th && Pending(s'.th[j]) && s'.th[j].dst == r
    {
      var j :| j in s.th && Pending(s.th[j]) && s.th[j].dst == r;
      assert j in s'.th.Keys && Pending(s'.th[j]) && s'.th[j].dst == r;
    }
  }

  lemma SweepRely(s: State, i: Tid, j: Tid)
    requires CanStartSweep(s, i) && Shape(s) && j in s.th && i != j && Apart(s.th[i], s.th[j])
    requires !Done(s.th[i]) && (Allocating(s.th[i]) ==> s.th[i].dst in s.slots)
    ensures Rely(s, DoStartSweep(s, i), j, s.th[j])
  {
  }

  lemma SweepOwn(s: State, i: Tid)
    requires CanStartSweep(s, i) && ThreadOk(s, i, s.th[i]) && StampsOk(s) && RowsOk(s)
    ensures ThreadOk(DoStartSweep(s, i), i, DoStartSweep(s, i).th[i])
  {
    hide Newest, StampsOk, RowsOk;
    var t, s' := s.th[i], DoStartSweep(s, i);
    assert Own(s', i) == Own(s, i);
    forall k | 0 <= k < |t.logs| ensures LogShape(s', t.logs[k]) {
      assert LogShape(s, t.logs[k]);
    }
    if t.pc.Finished? {
      FinishedIsPublished(s, i);
    }
  }

  lemma FinishedIsPublished(s: State, i: Tid)
    requires i in s.th && s.th[i].pc.Finished? && !s.th[i].mon.Sweep? && ThreadOk(s, i, s.th[i]) && StampsOk(s)
             && RowsOk(s)
    ensures (i, Own(s, i)) in s.pub
  {
    hide Newest, OpOk, LogOk, RegOk, MonOk, StampsOk, RowsOk, ReleaseOk;
    var o := s.th[i].obj;
    OneRow(s, i, i);
    if Carries(s, i, o, Own(s, i)) {
      OneStamp(s, o);
    } else {
      var j :| SeenBy(s, j, i, Own(s, i));
      OneRow(s, j, i);
    }
  }

  lemma SweepShape(s: State, i: Tid)
    requires CanStartSweep(s, i) && Shape(s) && OpOk(s, s.th[i])
    ensures Shape(DoStartSweep(s, i))
  {
  }

  lemma KeepStartSweep(s: State, i: Tid)
    requires Inv(s) && CanStartSweep(s, i)
    ensures Inv(DoStartSweep(s, i))
  {
    hide Shape, EffOk, Exclusive, CountOk, PoolOk, StampsOk, RowsOk, PubOk, OpOk, LogOk, CommitOk, RegOk, ReleaseOk,
         ShapeT, Rely, Newest;
    var t, s' := s.th[i], DoStartSweep(s, i);
    assert ThreadOk(s, i, t);
    if Allocating(t) {
      CasDst(s, t);
    }
    SweepShape(s, i);
    SweepEff(s, i);
    ExclusiveFrame(s, s', i);
    ErasFrame(s, s', i);
    CountFrame(s, s');
    PoolFrame(s, s');
    SweepOwn(s, i);
    forall j | j in s.th && j != i ensures Rely(s, s', j, s.th[j]) {
      assert Apart(s.th[i], s.th[j]) by { TwoApart(s, i, j); }
      SweepRely(s, i, j);
    }
    Compose(s, s', i);
  }
}

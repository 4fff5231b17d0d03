/** Every step keeps the invariant: the actor re-establishes its own part, the rest rely on it. */
module RefSteps {
  import opened RefTypes
  import opened RefMachine
  import opened RefInvariant

  ghost predicate Globals(s: State) {
    && Shape(s) && EffOk(s) && Exclusive(s) && CountOk(s) && PoolOk(s)
    && StampsOk(s) && RowsOk(s) && PubOk(s)
  }

  ghost predicate OthersRely(s: State, s': State, i: Tid) {
    forall j :: j in s.th && j != i ==> Rely(s, s', j, s.th[j])
  }

  /** The other clients' records are untouched. */
  ghost predicate Stepped(s: State, s': State, i: Tid) {
    && i in s.th && s'.th.Keys == s.th.Keys
    && (forall j :: j in s.th && j != i ==> s'.th[j] == s.th[j])
  }

  lemma Compose(s: State, s': State, i: Tid)
    requires ThreadsOk(s) && Stepped(s, s', i) && OthersRely(s, s', i)
    requires Globals(s') && i in s'.th && ThreadOk(s', i, s'.th[i])
    ensures Inv(s')
  {
    hide Shape, EffOk, Exclusive, CountOk, PoolOk, StampsOk, RowsOk, PubOk, ThreadOk, Rely;
    forall j | j in s'.th ensures ThreadOk(s', j, s'.th[j]) {
      assert j in s.th.Keys;
      if j != i {
        Stable(s, s', j, s.th[j]);
      }
    }
  }

  // ----- frames: a step that leaves these parts of the state alone

  lemma EffFrame(s: State, s': State, i: Tid)
    requires EffOk(s) && Stepped(s, s', i) && s'.slots == s.slots && s'.eff == s.eff
    requires Pending(s.th[i]) ==> i in s'.th && Pending(s'.th[i]) && s'.th[i].dst == s.th[i].dst
    ensures EffOk(s')
  {
    forall r | r in s'.slots && r in s'.eff && s'.eff[r] != s'.slots[r]
      ensures exists j :: j in s'.th && Pending(s'.th[j]) && s'.th[j].dst == r
    {
      var j :| j in s.th && Pending(s.th[j]) && s.th[j].dst == r;
      assert j in s'.th.Keys && Pending(s'.th[j]) && s'.th[j].dst == r;
    }
  }

  /** The actor claims no slot and no release that it did not claim before. */
  ghost predicate Narrower(t: Thread, t': Thread) {
    && (Active(t') ==> Active(t) && t'.dst == t.dst)
    && (UsesSrc(t') ==> UsesSrc(t) && t'.src == t.src)
    && (Responsible(t') ==> Responsible(t) && t'.obj == t.obj)
  }

  lemma ExclusiveFrame(s: State, s': State, i: Tid)
    requires Exclusive(s) && Stepped(s, s', i) && i in s'.th && Narrower(s.th[i], s'.th[i])
    ensures Exclusive(s')
  {
    forall j, k | j in s'.th && k in s'.th && j != k ensures Apart(s'.th[j], s'.th[k]) {
      assert j in s.th.Keys && k in s.th.Keys;
      assert Apart(s.th[j], s.th[k]);
    }
  }

  lemma ErasFrame(s: State, s': State, i: Tid)
    requires StampsOk(s) && RowsOk(s) && PubOk(s) && Stepped(s, s', i)
    requires s'.words == s.words && s'.era == s.era && s'.pub == s.pub
    requires i in s'.th && (s.th[i].mon.Sweep? ==> s'.th[i].mon.Sweep?)
    requires Published(s.th[i]) ==> Published(s'.th[i]) && (s'.th[i].obj == s.th[i].obj || s'.th[i].mon.Sweep?)
    ensures StampsOk(s') && RowsOk(s') && PubOk(s')
  {
    assert forall j :: j in s.th <==> j in s'.th.Keys;
    forall o | o in s'.words ensures StampOk(s', o, s'.words[o]) {
      assert StampOk(s, o, s.words[o]);
    }
    forall j, c ensures RowOk(s', j, c) {
      assert RowOk(s, j, c);
    }
  }

  lemma CountFrame(s: State, s': State)
    requires CountOk(s) && s'.words == s.words && s'.eff == s.eff
    ensures CountOk(s')
  {
  }

  // ----- steps that change only the actor's own registers, log or monitor phase

  ghost predicate Quiet(t: Thread, t': Thread) {
    && t'.func == t.func && t'.dst == t.dst && t'.src == t.src && t'.obj == t.obj
    && ((t'.pc == t.pc && t'.reg == t.reg) || (Trying(t) && Trying(t')))
    && (t'.mon.Sweep? || t.mon.Sweep? ==> t'.mon == t.mon)
  }

  lemma RegisterRely(s: State, i: Tid, t': Thread, j: Tid)
    requires Shape(s) && i in s.th && j in s.th && i != j
    requires Published(s.th[i]) ==> Published(t')
    requires s.th[i].mon.Sweep? ==> t'.mon == s.th[i].mon
    ensures Rely(s, SetThread(s, i, t'), j, s.th[j])
  {
  }

  lemma QuietStep(s: State, i: Tid, t': Thread)
    requires Inv(s) && i in s.th && Quiet(s.th[i], t')
    requires ThreadOk(SetThread(s, i, t'), i, t')
    ensures Inv(SetThread(s, i, t'))
  {
    hide EffOk, Exclusive, CountOk, StampsOk, RowsOk, PubOk, ThreadOk, Rely, ThreadsOk;
    var s' := SetThread(s, i, t');
    EffFrame(s, s', i);
    ExclusiveFrame(s, s', i);
    ErasFrame(s, s', i);
    CountFrame(s, s');
    forall j | j in s.th && j != i ensures Rely(s, s', j, s.th[j]) {
      RegisterRely(s, i, t', j);
    }
    Compose(s, s', i);
  }

  /** An object that is being linked or unlinked has a count, so its word carries a stamp. */
  lemma Alive(s: State, i: Tid)
    requires Inv(s) && i in s.th && Trying(s.th[i])
    ensures s.th[i].obj in s.words && s.words[s.th[i].obj].cnt > 0
    ensures s.words[s.th[i].obj].cid != 0
  {
    hide EffOk, Exclusive, PoolOk, RowsOk, PubOk, RegOk, CommitOk, LogOk, ReleaseOk, MonOk;
    var t := s.th[i];
    assert ThreadOk(s, i, t);
    var r := if t.func.LinkRef? then t.src else t.dst;
    assert r in Holders(s.eff, t.obj);
    assert StampOk(s, t.obj, s.words[t.obj]);
  }

  /** The actor's slots, evidence and releases do not depend on a quiet change. */
  lemma QuietOwn(s: State, i: Tid, t': Thread)
    requires i in s.th && Quiet(s.th[i], t')
    requires OpOk(s, s.th[i]) && CommitOk(s, i, s.th[i]) && ReleaseOk(s, i, s.th[i])
    ensures var s' := SetThread(s, i, t');
            OpOk(s', t') && CommitOk(s', i, t') && ReleaseOk(s', i, t')
  {
    var s' := SetThread(s, i, t');
    if Stamped(t') && !t'.mon.Sweep? && !Carries(s, i, t'.obj, Own(s, i)) {
      var j :| SeenBy(s, j, i, Own(s, i));
      assert SeenBy(s', j, i, Own(s', i));
    }
  }

  lemma LoadReg(s: State, i: Tid)
    requires StampsOk(s) && CanLoad(s, i) && s.words[s.th[i].obj].cid != 0
    ensures RegOk(DoLoad(s, i), i, DoLoad(s, i).th[i])
  {
    assert StampOk(s, s.th[i].obj, s.words[s.th[i].obj]);
    var c := s.words[s.th[i].obj].cid;
    if c == i {
      assert Own(s, i) == Own(s, c);
    }
  }

  lemma QuietShape(s: State, i: Tid, t': Thread)
    requires i in s.th && Quiet(s.th[i], t') && t'.logs == s.th[i].logs
    requires ShapeT(s, s.th[i]) && LogOk(s, i, s.th[i])
    requires t'.pc == s.th[i].pc || !t'.pc.Logged? || t'.mon.Sweep?
    requires t'.pc.Finished? || t'.pc.Aborted? ==> t'.mon.Recovered?
    ensures ShapeT(SetThread(s, i, t'), t') && LogOk(SetThread(s, i, t'), i, t')
  {
    hide Newest;
    var s' := SetThread(s, i, t');
    forall k | 0 <= k < |t'.logs| ensures LogShape(s', t'.logs[k]) {
      assert LogShape(s, s.th[i].logs[k]);
    }
    forall k | 0 <= k < |t'.logs| && t'.logs[k].era == Own(s', i) && !t'.mon.Sweep? ensures CurrentLog(t', t'.logs[k]) {
      assert CurrentLog(s.th[i], t'.logs[k]);
    }
  }

  lemma KeepLoad(s: State, i: Tid)
    requires Inv(s) && CanLoad(s, i)
    ensures Inv(DoLoad(s, i))
  {
    hide Shape, EffOk, Exclusive, CountOk, PoolOk, RowsOk, OpOk, RegOk, CommitOk, ReleaseOk, StampsOk, LogOk, ShapeT,
         Newest;
    var t := s.th[i];
    var t' := DoLoad(s, i).th[i];
    Alive(s, i);
    assert ThreadOk(s, i, t);
    LoadReg(s, i);
    QuietOwn(s, i, t');
    QuietShape(s, i, t');
    QuietStep(s, i, t');
  }

  lemma KeepCasFail(s: State, i: Tid)
    requires Inv(s) && CanCasFail(s, i)
    ensures Inv(DoCasFail(s, i))
  {
    hide Shape, EffOk, Exclusive, CountOk, PoolOk, RowsOk, OpOk, CommitOk, ReleaseOk, StampsOk, LogOk, ShapeT, Newest;
    var t' := DoCasFail(s, i).th[i];
    assert ThreadOk(s, i, s.th[i]);
    QuietOwn(s, i, t');
    QuietShape(s, i, t');
    QuietStep(s, i, t');
  }

  lemma NewestAt(logs: seq<RedoLog>, k: nat)
    requires k < |logs| && forall j :: 0 <= j < |logs| && j != k ==> logs[j].era < logs[k].era
    ensures Newest(logs) == logs[k]
  {
    var j :| 0 <= j < |logs| && logs[j] == Newest(logs);
  }

  lemma WriteLogOwn(s: State, i: Tid)
    requires CanWriteLog(s, i) && RowsOk(s) && s.th[i].dst in s.slots
    requires ShapeT(s, s.th[i]) && LogOk(s, i, s.th[i])
    ensures var s' := DoWriteLog(s, i); ShapeT(s', s'.th[i]) && LogOk(s', i, s'.th[i])
  {
    hide Newest;
    var s' := DoWriteLog(s, i);
    var t, t' := s.th[i], s'.th[i];
    var n := Own(s, i) % REDO_CACHELINE_CNT;
    forall k | 0 <= k < |t'.logs| ensures LogShape(s', t'.logs[k]) {
      assert LogShape(s, t.logs[k]);
    }
  }

  lemma KeepWriteLog(s: State, i: Tid)
    requires Inv(s) && CanWriteLog(s, i)
    ensures Inv(DoWriteLog(s, i))
  {
    hide Shape, EffOk, Exclusive, CountOk, PoolOk, RowsOk, CommitOk, ReleaseOk, StampsOk, LogOk, ShapeT, Newest;
    var t' := DoWriteLog(s, i).th[i];
    assert ThreadOk(s, i, s.th[i]);
    WriteLogOwn(s, i);
    QuietOwn(s, i, t');
    QuietStep(s, i, t');
  }

  lemma KeepSkip(s: State, i: Tid)
    requires Inv(s) && CanSkip(s, i)
    ensures Inv(DoSkip(s, i))
  {
    hide Shape, EffOk, Exclusive, CountOk, PoolOk, RowsOk, OpOk, CommitOk, ReleaseOk, StampsOk, LogOk, ShapeT, Newest;
    var t' := DoSkip(s, i).th[i];
    assert ThreadOk(s, i, s.th[i]);
    QuietOwn(s, i, t');
    QuietShape(s, i, t');
    QuietStep(s, i, t');
  }

  lemma KeepClearLogs(s: State, i: Tid)
    requires Inv(s) && CanClearLogs(s, i)
    ensures Inv(DoClearLogs(s, i))
  {
    hide Shape, EffOk, Exclusive, CountOk, PoolOk, CommitOk, ReleaseOk, StampsOk, Newest;
    var t' := DoClearLogs(s, i).th[i];
    assert ThreadOk(s, i, s.th[i]);
    QuietOwn(s, i, t');
    assert MonOk(DoClearLogs(s, i), i, t');
    QuietStep(s, i, t');
  }

  lemma KeepCrash(s: State, i: Tid)
    requires Inv(s) && CanCrash(s, i)
    ensures Inv(DoCrash(s, i))
  {
    hide Shape, EffOk, Exclusive, CountOk, PoolOk, RowsOk, CommitOk, ReleaseOk, StampsOk, ShapeT, Newest, OpOk;
    var t' := DoCrash(s, i).th[i];
    assert ThreadOk(s, i, s.th[i]);
    QuietOwn(s, i, t');
    QuietShape(s, i, t');
    QuietStep(s, i, t');
  }

  // ----- the monitor's reads

  /** A monitor step that leaves the client's own record alone keeps everything but `MonOk`. */
  lemma MonitorStep(s: State, i: Tid, m: Mon)
    requires Inv(s) && i in s.th && !s.th[i].mon.Up? && !s.th[i].mon.Recovered? && !s.th[i].mon.Sweep?
    requires MonOk(s, i, s.th[i].(mon := m)) && !m.Recovered? && !m.Sweep?
    ensures Inv(SetThread(s, i, s.th[i].(mon := m)))
  {
    hide Shape, EffOk, Exclusive, CountOk, PoolOk, RowsOk, CommitOk, ReleaseOk, StampsOk, ShapeT, Newest, OpOk;
    var t' := s.th[i].(mon := m);
    var s' := SetThread(s, i, t');
    assert ThreadOk(s, i, s.th[i]);
    QuietOwn(s, i, t');
    QuietShape(s, i, t');
    MonFrame(s, i, t');
    QuietStep(s, i, t');
  }

  lemma MonFrame(s: State, i: Tid, t': Thread)
    requires i in s.th && MonOk(s, i, t')
    ensures MonOk(SetThread(s, i, t'), i, t')
  {
    hide Newest;
    var s' := SetThread(s, i, t');
    if (t'.mon.Scan? || t'.mon.Grow?) && Unscanned(s, i, t'.mon.row, Own(s, i)) {
      var j :| SeenBy(s, j, i, Own(s, i)) && t'.mon.row <= j;
      assert SeenBy(s', j, i, Own(s', i));
    }
  }

  /** A record of the client's current era describes its open operation. */
  lemma FreshRecord(s: State, i: Tid)
    requires Inv(s) && HasLogs(s, i) && FreshRec(s, i) && !s.th[i].mon.Sweep?
    ensures CurrentLog(s.th[i], Rec(s.th[i]))
  {
    hide Shape, EffOk, Exclusive, CountOk, PoolOk, RowsOk, CommitOk, ReleaseOk, StampsOk, ShapeT, OpOk, RegOk, MonOk,
         Newest;
    var t := s.th[i];
    assert ThreadOk(s, i, t);
    var k :| 0 <= k < |t.logs| && t.logs[k] == Rec(t);
  }

  lemma KeepReadCid(s: State, i: Tid)
    requires Inv(s) && CanReadCid(s, i)
    ensures Inv(DoReadCid(s, i))
  {
    hide Shape, EffOk, Exclusive, CountOk, PoolOk, RowsOk, CommitOk, ReleaseOk, StampsOk, ShapeT, OpOk, RegOk, Newest,
         LogOk;
    var t := s.th[i];
    assert ThreadOk(s, i, t);
    if FreshRec(s, i) && Rec(t).func.NoFunc? {
      FreshRecord(s, i);
      FuncKnown(s, t);
    }
    MonitorStep(s, i, DoReadCid(s, i).th[i].mon);
  }

  lemma FuncKnown(s: State, t: Thread)
    requires ShapeT(s, t) && (Trying(t) || Stamped(t) || t.pc.Aborted?)
    ensures !t.func.NoFunc?
  {
  }

  /** Outside a torn read, a match means that the client's CAS took effect; a mismatch means that
      a committed stamp has been seen in some row. */
  lemma ReadEraMon(s: State, i: Tid)
    requires CanReadEra(s, i) && (FreshRec(s, i) && !Done(s.th[i]) ==> !Torn(s, i)) && StampsOk(s) && Own(s, i) > 0
    requires CommitOk(s, i, s.th[i]) && MonOk(s, i, s.th[i]) && !s.th[i].pc.Finished?
    requires FreshRec(s, i) ==> CurrentLog(s.th[i], Rec(s.th[i]))
    ensures MonOk(s, i, DoReadEra(s, i).th[i])
  {
    hide Newest, StampsOk;
    var t := s.th[i];
    if FreshRec(s, i) {
      assert StampOk(s, t.obj, s.words[t.obj]) by { OneStamp(s, t.obj); }
      if Done(t) && !Carries(s, i, t.obj, Own(s, i)) {
        var j :| SeenBy(s, j, i, Own(s, i));
        assert Unscanned(s, i, 0, Own(s, i));
      }
    }
  }

  lemma OneStamp(s: State, o: Obj)
    requires StampsOk(s) && o in s.words
    ensures StampOk(s, o, s.words[o])
  {
  }

  /** The client's own clauses, with nothing unfolded. */
  lemma Unpack(s: State, i: Tid)
    requires Inv(s) && i in s.th
    ensures ThreadOk(s, i, s.th[i]) && StampsOk(s) && RowsOk(s) && Own(s, i) > 0
  {
    hide ThreadOk, StampsOk, RowOk;
  }

  lemma KeepReadEra(s: State, i: Tid)
    requires Inv(s) && CanReadEra(s, i) && (FreshRec(s, i) && !Done(s.th[i]) ==> !Torn(s, i))
    ensures Inv(DoReadEra(s, i))
  {
    hide Inv, MonOk, StampsOk, RowsOk, CommitOk, OpOk, ShapeT, RegOk, ReleaseOk, Newest;
    Unpack(s, i);
    if FreshRec(s, i) {
      FreshRecord(s, i);
    }
    ReadEraMon(s, i);
    MonitorStep(s, i, DoReadEra(s, i).th[i].mon);
  }

  lemma CompareMon(s: State, i: Tid)
    requires CanCompare(s, i) && RowsOk(s) && MonOk(s, i, s.th[i])
    requires forall j :: j in s.th ==> j < MAX_THREAD
    ensures MonOk(s, i, DoCompare(s, i).th[i])
  {
    hide Newest, RowsOk;
    var t := s.th[i];
    var Scan(row, max) := t.mon;
    if FreshRec(s, i) && Done(t) && max < Own(s, i) {
      var j :| SeenBy(s, j, i, Own(s, i)) && row <= j;
      assert RowOk(s, j, i) by { OneRow(s, j, i); }
      if row != MAX_THREAD && j != row {
        assert Unscanned(s, i, row + 1, Own(s, i));
      }
    }
  }

  lemma OneRow(s: State, j: Tid, c: Tid)
    requires RowsOk(s)
    ensures RowOk(s, j, c) && (c in s.th ==> Own(s, c) > 0)
  {
  }

  lemma KeepCompare(s: State, i: Tid)
    requires Inv(s) && CanCompare(s, i)
    ensures Inv(DoCompare(s, i))
  {
    hide MonOk, StampsOk, RowsOk, CommitOk, OpOk, ShapeT, RegOk, ReleaseOk, Newest, LogOk, EffOk, Exclusive, CountOk,
         PoolOk, PubOk, ThreadsOk;
    Unpack(s, i);
    OneRow(s, i, i);
    CompareMon(s, i);
    MonitorStep(s, i, DoCompare(s, i).th[i].mon);
  }

  lemma GrowMon(s: State, i: Tid)
    requires CanGrow(s, i) && RowsOk(s) && MonOk(s, i, s.th[i]) && !s.th[i].pc.Finished?
    ensures MonOk(s, i, DoGrow(s, i).th[i])
  {
    hide Newest, RowsOk;
    var t := s.th[i];
    var row := t.mon.row;
    OneRow(s, row, i);
    if FreshRec(s, i) && Done(t) && Unscanned(s, i, row, Own(s, i)) {
      var j :| SeenBy(s, j, i, Own(s, i)) && row <= j;
      if j != row {
        assert Unscanned(s, i, row + 1, Own(s, i));
      }
    }
  }

  lemma KeepGrow(s: State, i: Tid)
    requires Inv(s) && CanGrow(s, i)
    ensures Inv(DoGrow(s, i))
  {
    hide Inv, MonOk, StampsOk, RowsOk, CommitOk, OpOk, ShapeT, RegOk, ReleaseOk, Newest;
    Unpack(s, i);
    GrowMon(s, i);
    MonitorStep(s, i, DoGrow(s, i).th[i].mon);
  }
}

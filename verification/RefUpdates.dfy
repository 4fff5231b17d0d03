/** The steps that write shared memory keep the invariant. */
module RefUpdates {
  import opened RefTypes
  import opened RefMachine
  import opened RefInvariant
  import opened RefSteps

  // ----- era-record

  /** What one row write does: only the cell (i, saw_cid) moves, up to a published era. */
  ghost predicate RecordedCell(s: State, i: Tid, t: Thread, m: EraMatrix) {
    && t.reg.cid in s.th && t.reg.era <= Own(s, t.reg.cid) && (t.reg.cid, t.reg.era) in s.pub
    && (t.reg.era == Own(s, t.reg.cid) ==> Published(s.th[t.reg.cid]))
    && (forall j: Tid, c: Tid :: (j, c) != (i, t.reg.cid) ==> EraAt(m, j, c) == EraAt(s.era, j, c))
    && EraAt(m, i, t.reg.cid) >= t.reg.era && EraAt(m, i, t.reg.cid) >= EraAt(s.era, i, t.reg.cid)
    && (EraAt(m, i, t.reg.cid) == t.reg.era || EraAt(m, i, t.reg.cid) == EraAt(s.era, i, t.reg.cid))
    && (t.reg.cid == i ==> m == s.era)
  }

  lemma RecordCell(s: State, i: Tid)
    requires i in s.th && HasReg(s.th[i]) && ShapeT(s, s.th[i]) && RegOk(s, i, s.th[i])
    ensures RecordedCell(s, i, s.th[i], Observe(s.era, i, s.th[i].reg))
  {
    hide Newest;
  }

  /** The row write alone: nobody's view changes but for a grown cell. */
  lemma RecordShared(s: State, i: Tid)
    requires Inv(s) && CanRecord(s, i)
    ensures Inv(s.(era := Observe(s.era, i, s.th[i].reg)))
  {
    hide EffOk, Exclusive, CountOk, PoolOk, StampOk, RowOk, ThreadOk, Observe, Rely;
    var s' := s.(era := Observe(s.era, i, s.th[i].reg));
    assert ThreadOk(s, i, s.th[i]);
    ThreadParts(s, i);
    RecordCell(s, i);
    assert forall c :: c != s.th[i].reg.cid ==> Own(s', c) == Own(s, c);
    assert forall c :: Own(s', c) == Own(s, c);
    EffFrame(s, s', i);
    assert Exclusive(s') by { ExclusiveFrame(s, s', i); }
    assert CountOk(s') by { CountFrame(s, s'); }
    assert PoolOk(s') by { PoolFrame(s, s'); }
    forall o | o in s'.words ensures StampOk(s', o, s'.words[o]) {
      assert StampOk(s, o, s.words[o]);
      StampKept(s, s', o, s.words[o]);
    }
    forall j, c ensures RowOk(s', j, c) {
      assert RowOk(s, j, c);
      RecordRow(s, i, s'.era, j, c);
    }
    forall j | j in s'.th ensures ThreadOk(s', j, s'.th[j]) {
      RecordRely(s, i, s'.era, j);
      Stable(s, s', j, s.th[j]);
    }
  }

  lemma RecordRely(s: State, i: Tid, m: EraMatrix, j: Tid)
    requires i in s.th && j in s.th && RecordedCell(s, i, s.th[i], m)
    requires forall c :: Own(s.(era := m), c) == Own(s, c)
    ensures Rely(s, s.(era := m), j, s.th[j])
  {
    var s' := s.(era := m);
    if Published(s.th[j]) && Carries(s, j, s.th[j].obj, Own(s, j)) {
      assert Carries(s', j, s.th[j].obj, Own(s, j));
    }
  }

  lemma ThreadParts(s: State, i: Tid)
    requires i in s.th && ThreadOk(s, i, s.th[i])
    ensures ShapeT(s, s.th[i]) && RegOk(s, i, s.th[i])
  {
    hide ShapeT, RegOk, OpOk, CommitOk, LogOk, ReleaseOk, MonOk;
  }

  lemma PoolFrame(s: State, s': State)
    requires PoolOk(s) && s'.words == s.words && s'.pool <= s.pool
    ensures PoolOk(s')
  {
  }

  lemma StampKept(s: State, s': State, o: Obj, w: Word)
    requires StampOk(s, o, w) && s'.th == s.th && s.pub <= s'.pub
    requires forall c :: Own(s', c) == Own(s, c)
    ensures StampOk(s', o, w)
  {
  }

  lemma RecordRow(s: State, i: Tid, m: EraMatrix, j: Tid, c: Tid)
    requires i in s.th && RecordedCell(s, i, s.th[i], m) && RowOk(s, j, c)
    requires forall c :: Own(s.(era := m), c) == Own(s, c)
    ensures RowOk(s.(era := m), j, c)
  {
  }

  lemma KeepRecord(s: State, i: Tid)
    requires Inv(s) && CanRecord(s, i)
    ensures Inv(DoRecord(s, i))
  {
    hide Shape, EffOk, Exclusive, CountOk, PoolOk, StampsOk, RowsOk, PubOk, OpOk, LogOk, MonOk, CommitOk, ReleaseOk,
         ShapeT, Newest;
    var s1 := s.(era := Observe(s.era, i, s.th[i].reg));
    RecordShared(s, i);
    assert RecordedCell(s, i, s.th[i], s1.era) by {
      assert ThreadOk(s, i, s.th[i]);
      RecordCell(s, i);
    }
    var t' := s.th[i].(pc := Recorded);
    assert ThreadOk(s1, i, s1.th[i]);
    QuietOwn(s1, i, t');
    QuietShape(s1, i, t');
    ActMon(s1, i, t');
    QuietStep(s1, i, t');
    assert DoRecord(s, i) == SetThread(s1, i, t');
  }

  lemma ActMon(s: State, i: Tid, t': Thread)
    requires Acting(s, i) && MonOk(s, i, s.th[i]) && t'.mon == s.th[i].mon && t'.pc.Recorded?
    requires ShapeT(SetThread(s, i, t'), t')
    ensures MonOk(SetThread(s, i, t'), i, t')
  {
    hide Newest;
  }

  // ----- the compare-and-swap that succeeds

  /** One more holder of o, or one fewer; every other object keeps its holders. */
  lemma HoldersMove(m: map<Slot, Obj>, r: Slot, o: Obj)
    requires r in m && m[r] != o && o != 0
    ensures |Holders(m[r := o], o)| == |Holders(m, o)| + 1
    ensures m[r] == 0 ==> forall x :: x != o && x != 0 ==> Holders(m[r := o], x) == Holders(m, x)
  {
    assert Holders(m[r := o], o) == Holders(m, o) + {r};
  }

  lemma HoldersDrop(m: map<Slot, Obj>, r: Slot)
    requires r in m && m[r] != 0
    ensures |Holders(m[r := 0], m[r])| == |Holders(m, m[r])| - 1
    ensures forall x :: x != m[r] && x != 0 ==> Holders(m[r := 0], x) == Holders(m, x)
  {
    assert Holders(m, m[r]) == Holders(m[r := 0], m[r]) + {r};
  }

  lemma CasCount(s: State, i: Tid)
    requires CanCasOk(s, i) && CountOk(s) && OpOk(s, s.th[i]) && 0 !in s.words
    ensures CountOk(DoCasOk(s, i))
  {
    var t, s' := s.th[i], DoCasOk(s, i);
    if t.func.LinkRef? {
      HoldersMove(s.eff, t.dst, t.obj);
    } else {
      HoldersDrop(s.eff, t.dst);
    }
    forall o | o in s'.words ensures s'.words[o].cnt == |Holders(s'.eff, o)| {
      assert o in s.words.Keys;
    }
  }

  lemma CasEff(s: State, i: Tid)
    requires CanCasOk(s, i) && EffOk(s) && s.th[i].dst in s.slots
    ensures EffOk(DoCasOk(s, i))
  {
    var t, s' := s.th[i], DoCasOk(s, i);
    forall r | r in s'.slots && r in s'.eff && s'.eff[r] != s'.slots[r]
      ensures exists j :: j in s'.th && Pending(s'.th[j]) && s'.th[j].dst == r
    {
      if r == t.dst {
        assert Pending(s'.th[i]);
      } else {
        var j :| j in s.th && Pending(s.th[j]) && s.th[j].dst == r;
        assert j in s'.th.Keys && Pending(s'.th[j]) && s'.th[j].dst == r;
      }
    }
  }

  /** Storing one word whose stamp is in order keeps all stamps in order. */
  lemma WordEras(s: State, s': State, i: Tid, o: Obj)
    requires StampsOk(s) && RowsOk(s) && PubOk(s) && Stepped(s, s', i) && i in s'.th
    requires s'.era == s.era && s.pub <= s'.pub && o in s'.words && s'.words == s.words[o := s'.words[o]]
    requires s.th[i].mon.Sweep? ==> s'.th[i].mon.Sweep?
    requires Published(s.th[i]) ==> Published(s'.th[i]) && (s'.th[i].obj == s.th[i].obj || s'.th[i].mon.Sweep?)
    requires StampOk(s', o, s'.words[o])
    requires forall p :: p in s'.pub && p !in s.pub ==>
               p.0 in s'.th && p.1 <= Own(s', p.0) && (p.1 == Own(s', p.0) ==> Published(s'.th[p.0]))
    ensures StampsOk(s') && RowsOk(s') && PubOk(s')
  {
    assert forall c :: Own(s', c) == Own(s, c);
    assert forall c :: c in s.th <==> c in s'.th.Keys;
    forall x | x in s'.words ensures StampOk(s', x, s'.words[x]) {
      if x != o {
        assert StampOk(s, x, s.words[x]);
      }
    }
    forall j, c ensures RowOk(s', j, c) {
      assert RowOk(s, j, c);
    }
  }

  lemma CasEras(s: State, i: Tid)
    requires CanCasOk(s, i) && i != 0 && StampsOk(s) && RowsOk(s) && PubOk(s)
    ensures var s' := DoCasOk(s, i); StampsOk(s') && RowsOk(s') && PubOk(s')
  {
    hide StampsOk, RowsOk, PubOk;
    var s' := DoCasOk(s, i);
    assert Own(s', i) == Own(s, i);
    WordEras(s, s', i, s.th[i].obj);
  }

  lemma CasExclusive(s: State, i: Tid)
    requires CanCasOk(s, i) && Exclusive(s) && Stepped(s, DoCasOk(s, i), i)
    requires forall j :: j in s.th && Responsible(s.th[j]) ==> s.th[j].obj != s.th[i].obj
    ensures Exclusive(DoCasOk(s, i))
  {
    var s' := DoCasOk(s, i);
    forall j, k | j in s'.th && k in s'.th && j != k ensures Apart(s'.th[j], s'.th[k]) {
      assert j in s.th.Keys && k in s.th.Keys;
      assert Apart(s.th[j], s.th[k]);
    }
  }

  /** Nobody is responsible for an object that is still being linked or unlinked. */
  lemma NoReleaser(s: State, i: Tid, j: Tid)
    requires Inv(s) && i in s.th && j in s.th && Trying(s.th[i]) && Responsible(s.th[j])
    ensures s.th[j].obj != s.th[i].obj
  {
    hide EffOk, Exclusive, CountOk, PoolOk, StampsOk, RowsOk, PubOk, OpOk, LogOk, MonOk, CommitOk, RegOk, Newest;
    Alive(s, i);
    assert ThreadOk(s, j, s.th[j]);
  }

  lemma CasWords(s: State, i: Tid, j: Tid)
    requires CanCasOk(s, i) && j in s.th && i != j && 0 < j
    requires RegOk(s, i, s.th[i]) && RegOk(s, j, s.th[j])
    requires Published(s.th[i]) ==> Twice(s, i)
    requires Responsible(s.th[j]) ==> s.th[j].obj != s.th[i].obj
    ensures RelyWords(s, DoCasOk(s, i), j, s.th[j])
  {
    var t, u, s' := s.th[i], s.th[j], DoCasOk(s, i);
    assert forall c :: Own(s', c) == Own(s, c);
    if Published(u) && Carries(s, j, u.obj, Own(s, j)) && u.obj == t.obj {
      assert SeenBy(s', i, j, Own(s, j));
    } else if Published(u) && Carries(s, j, u.obj, Own(s, j)) && u.obj in s'.words {
      assert Carries(s', j, u.obj, Own(s, j));
    }
  }

  /** The compare-and-swap of one client as another client sees it. */
  lemma CasRely(s: State, i: Tid, j: Tid)
    requires CanCasOk(s, i) && j in s.th && i != j && 0 < j
    requires Shape(s) && Apart(s.th[i], s.th[j]) && s.th[i].dst in s.eff
    requires RegOk(s, i, s.th[i]) && RegOk(s, j, s.th[j])
    requires Published(s.th[i]) ==> Twice(s, i)
    requires Responsible(s.th[j]) ==> s.th[j].obj != s.th[i].obj
    ensures Rely(s, DoCasOk(s, i), j, s.th[j])
  {
    hide RegOk, RelyWords;
    CasWords(s, i, j);
  }

  lemma CasOwn(s: State, i: Tid)
    requires CanCasOk(s, i) && ThreadOk(s, i, s.th[i]) && s.th[i].obj !in s.pool
    ensures var s' := DoCasOk(s, i); ThreadOk(s', i, s'.th[i])
  {
    hide Newest;
    var t, s' := s.th[i], DoCasOk(s, i);
    var t' := s'.th[i];
    assert Own(s', i) == Own(s, i);
    assert Carries(s', i, t'.obj, Own(s', i));
    forall k | 0 <= k < |t'.logs| ensures LogShape(s', t'.logs[k]) {
      assert LogShape(s, t.logs[k]);
    }
    forall k | 0 <= k < |t'.logs| && t'.logs[k].era == Own(s', i) && !t'.mon.Sweep? ensures CurrentLog(t', t'.logs[k]) {
      assert CurrentLog(t, t.logs[k]);
    }
  }

  lemma KeepCasOk(s: State, i: Tid)
    requires Inv(s) && CanCasOk(s, i)
    ensures Inv(DoCasOk(s, i))
  {
    hide EffOk, Exclusive, CountOk, StampsOk, RowsOk, PubOk, OpOk, LogOk, MonOk, CommitOk, RegOk, ReleaseOk, ShapeT,
         Rely, Newest;
    var t, s' := s.th[i], DoCasOk(s, i);
    assert ThreadOk(s, i, t);
    Alive(s, i);
    forall j | j in s.th && Responsible(s.th[j]) ensures s.th[j].obj != t.obj {
      NoReleaser(s, i, j);
    }
    assert t.obj !in s.pool;
    if Published(t) {
      OnlySwept(s, i);
    }
    CasDst(s, t);
    CasCount(s, i);
    CasEff(s, i);
    CasEras(s, i);
    CasExclusive(s, i);
    CasOwn(s, i);
    forall j | j in s.th && j != i ensures Rely(s, s', j, s.th[j]) {
      assert ThreadOk(s, j, s.th[j]);
      assert Apart(s.th[i], s.th[j]) by { TwoApart(s, i, j); }
      CasRely(s, i, j);
    }
    assert PoolOk(s');
    Compose(s, s', i);
  }

  /** Before its CAS only a swept client can have its era on a word. */
  lemma OnlySwept(s: State, i: Tid)
    requires i in s.th && Trying(s.th[i]) && MonOk(s, i, s.th[i]) && Published(s.th[i])
    ensures Twice(s, i)
  {
    hide Newest;
  }

  lemma CasDst(s: State, t: Thread)
    requires OpOk(s, t) && Active(t)
    ensures t.dst in s.slots && t.dst in s.eff
  {
  }

  lemma TwoApart(s: State, i: Tid, j: Tid)
    requires Exclusive(s) && i in s.th && j in s.th && i != j
    ensures Apart(s.th[i], s.th[j])
  {
  }
}

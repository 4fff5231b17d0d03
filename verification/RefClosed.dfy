/** The monitor takes the record of a link for committed also after the link was closed. */
module RefClosed {
  import opened RefTypes
  import opened RefMachine
  import opened RefInvariant
  import opened RefSteps
  import opened RefFinish
  import opened RefTheorems
  import opened RefRelease
  import opened RefEras
  import opened RefInfo
  import opened RefLost

  /** The newest record is of a link that was closed. */
  predicate ClosedLink(s: State, i: Tid) {
    HasLogs(s, i) && !s.th[i].mon.Sweep? && Rec(s.th[i]).func.LinkRef? && Rec(s.th[i]).era < Own(s, i)
  }

  ghost predicate LooksCommitted(s: State, i: Tid) {
    && (ClosedLink(s, i) ==> Evidence(s, i, Rec(s.th[i]).refed, Rec(s.th[i]).era))
    && (HasLogs(s, i) && !s.th[i].mon.Sweep? && s.th[i].pc.FreeDue? ==> !Rec(s.th[i]).func.LinkRef?)
  }

  // ----- steps of the others

  lemma OwnKept(s: State, a: Action, i: Tid)
    requires Can(s, a) && a.i != i
    ensures Own(Do(s, a), i) == Own(s, i)
  {
    if a.Record? {
      assert Do(s, a).era == Observe(s.era, a.i, s.th[a.i].reg);
    } else if a.Bump? || a.AllocBump? {
      assert Do(s, a).era == BumpEra(s.era, a.i);
    } else {
      hide Can, Do;
      OthersKeepEras(s, a);
    }
  }

  /** Whoever overwrites a word has recorded the era it carried. */
  lemma OverwriteSeen(s: State, a: Action, i: Tid, o: Obj, e: nat)
    requires Inv(s) && Can(s, a) && a.i != i && i != 0 && Carries(s, i, o, e) && (a.CasOk? || a.Free? || a.AllocStamp?)
    ensures Carries(Do(s, a), i, o, e) || (a.CasOk? && SeenBy(s, a.i, i, e))
  {
    hide Newest, EffOk, Exclusive, CountOk, PoolOk, StampsOk, RowsOk, PubOk, OpOk, LogOk, MonOk, CommitOk;
    assert ThreadOk(s, a.i, s.th[a.i]);
  }

  lemma EvidenceKept(s: State, a: Action, i: Tid, o: Obj, e: nat)
    requires Inv(s) && Can(s, a) && a.i != i && i != 0 && Evidence(s, i, o, e)
    ensures Evidence(Do(s, a), i, o, e)
  {
    hide Inv, Can, Do;
    var s' := Do(s, a);
    if Carries(s, i, o, e) {
      if a.CasOk? || a.Free? || a.AllocStamp? {
        OverwriteSeen(s, a, i, o, e);
        StepGrows(s, a, a.i, i);
        assert Carries(s', i, o, e) || SeenBy(s', a.i, i, e);
      } else {
        WordsKept(s, a);
      }
    } else {
      var j :| SeenBy(s, j, i, e);
      StepGrows(s, a, j, i);
      assert SeenBy(s', j, i, e);
    }
  }

  lemma OthersLook(s: State, a: Action, i: Tid)
    requires Inv(s) && LooksCommitted(s, i) && i in s.th && Can(s, a) && a.i != i
    ensures LooksCommitted(Do(s, a), i)
  {
    hide *;
    RealId(s, i);
    OtherStep(s, a, i);
    OwnKept(s, a, i);
    if ClosedLink(s, i) {
      ClosedLooks(s, i);
      EvidenceKept(s, a, i, Rec(s.th[i]).refed, Rec(s.th[i]).era);
    }
    LooksFrom(s, Do(s, a), i);
  }

  lemma ClosedLooks(s: State, i: Tid)
    requires LooksCommitted(s, i) && ClosedLink(s, i)
    ensures i in s.th && |s.th[i].logs| > 0 && Evidence(s, i, Rec(s.th[i]).refed, Rec(s.th[i]).era)
  {
  }

  lemma LooksFrom(s: State, s': State, i: Tid)
    requires LooksCommitted(s, i) && i in s.th && i in s'.th && s'.th[i] == s.th[i] && Own(s', i) == Own(s, i)
    requires ClosedLink(s, i) && |s.th[i].logs| > 0 ==> Evidence(s', i, Rec(s.th[i]).refed, Rec(s.th[i]).era)
    ensures LooksCommitted(s', i)
  {
    hide Evidence, Newest;
  }

  lemma RealId(s: State, i: Tid)
    requires Inv(s) && i in s.th
    ensures i != 0
  {
  }

  // ----- steps of the client, and of the monitor for it

  /** Words and rows of the others untouched, evidence stays. */
  lemma SameEvidence(s: State, s': State, i: Tid, o: Obj, e: nat)
    requires Evidence(s, i, o, e)
    requires Carries(s, i, o, e) ==> Carries(s', i, o, e)
    requires forall j :: j != i ==> EraAt(s'.era, j, i) == EraAt(s.era, j, i)
    ensures Evidence(s', i, o, e)
  {
    if !Carries(s, i, o, e) {
      var j :| SeenBy(s, j, i, e);
      assert SeenBy(s', j, i, e);
    }
  }

  lemma OthersRows(s: State, a: Action, i: Tid, j: Tid)
    requires Can(s, a) && a.i == i && j != i
    ensures EraAt(Do(s, a).era, j, i) == EraAt(s.era, j, i)
  {
    if a.Record? {
      assert Do(s, a).era == Observe(s.era, a.i, s.th[a.i].reg);
    } else if a.Bump? || a.AllocBump? {
      assert Do(s, a).era == BumpEra(s.era, a.i);
    } else {
      hide Can, Do;
      OthersKeepEras(s, a);
    }
  }

  /** The bump closes a link whose CAS has left evidence. */
  lemma BumpLooks(s: State, i: Tid)
    requires Inv(s) && LooksCommitted(s, i) && CanBump(s, i)
    ensures LooksCommitted(DoBump(s, i), i)
  {
    hide EffOk, Exclusive, CountOk, PoolOk, StampsOk, RowsOk, PubOk, OpOk, RegOk, MonOk, ReleaseOk, Newest, Evidence,
         ShapeT;
    var s', t := DoBump(s, i), s.th[i];
    assert ThreadOk(s, i, t);
    if !t.mon.Sweep? {
      DoneIsFresh(s, i);
      FreshRecord(s, i);
      forall j | j != i ensures EraAt(s'.era, j, i) == EraAt(s.era, j, i) {
        OthersRows(s, Bump(i), i, j);
      }
      SameEvidence(s, s', i, t.obj, Own(s, i));
    }
  }

  /** The client's updates of a word: its record is open, or it is not of a link, or the word was nobody's. */
  lemma WordLooks(s: State, a: Action)
    requires Inv(s) && LooksCommitted(s, a.i) && Can(s, a) && (a.CasOk? || a.Free? || a.AllocStamp?)
    ensures LooksCommitted(Do(s, a), a.i)
  {
    hide EffOk, Exclusive, CountOk, PoolOk, StampsOk, RowsOk, PubOk, OpOk, RegOk, MonOk, Newest, Evidence, ShapeT,
         CommitOk;
    var s', i := Do(s, a), a.i;
    assert ThreadOk(s, i, s.th[i]) && i != 0;
    if ClosedLink(s', i) {
      assert ClosedLink(s, i);
      if a.CasOk? {
        LoggedIsFresh(s, i);
      } else {
        SameEvidence(s, s', i, Rec(s.th[i]).refed, Rec(s.th[i]).era);
      }
    }
  }

  lemma LoggedIsFresh(s: State, i: Tid)
    requires Inv(s) && i in s.th && s.th[i].pc.Logged? && !s.th[i].mon.Sweep?
    ensures HasLogs(s, i) && FreshRec(s, i)
  {
    hide EffOk, Exclusive, CountOk, PoolOk, StampsOk, RowsOk, PubOk, OpOk, RegOk, MonOk, Newest, ShapeT, CommitOk,
         ReleaseOk;
    var t := s.th[i];
    assert ThreadOk(s, i, t);
    assert t.logs[Own(s, i) % REDO_CACHELINE_CNT] in t.logs;
    var k :| 0 <= k < |t.logs| && t.logs[k] == Rec(t);
  }

  /** A new record is open, and wiped lines hold none of a link. */
  lemma LogLooks(s: State, a: Action)
    requires Inv(s) && LooksCommitted(s, a.i) && Can(s, a) && (a.WriteLog? || a.ClearLogs?)
    ensures LooksCommitted(Do(s, a), a.i)
  {
    hide EffOk, Exclusive, CountOk, PoolOk, StampsOk, RowsOk, PubOk, OpOk, RegOk, MonOk, Newest, Evidence, ShapeT,
         CommitOk, ReleaseOk;
    var t' := Do(s, a).th[a.i];
    if a.ClearLogs? {
      var k :| 0 <= k < |t'.logs| && t'.logs[k] == Rec(t');
    } else {
      assert t'.logs[Own(s, a.i) % REDO_CACHELINE_CNT] in t'.logs;
    }
  }

  /** The other steps touch neither words nor records, and come to no hand-over. */
  predicate Plain(a: Action) {
    !a.Bump? && !a.CasOk? && !a.Free? && !a.AllocStamp? && !a.WriteLog? && !a.ClearLogs?
  }

  lemma NoSweep(s: State, i: Tid)
    requires CanRedo(s, i)
    ensures i in s.th && !s.th[i].mon.Sweep?
  {
  }

  lemma PlainStep(s: State, a: Action)
    requires Can(s, a) && Plain(a)
    ensures a.i in s.th && a.i in Do(s, a).th
    ensures var t, t' := s.th[a.i], Do(s, a).th[a.i];
            t'.logs == t.logs && (t'.pc.FreeDue? ==> t.pc.FreeDue?) && (t.mon.Sweep? ==> t'.mon.Sweep?)
  {
    if a.Redo? {
      hide CanRedo, DoRedo, Newest;
      RedoFrame(s, a.i);
      NoSweep(s, a.i);
    } else {
      hide Newest, Available, NotLinkedFrom, Calm, CanRedo, DoRedo;
    }
  }

  /** The client's own era stays, or what is closed then was closed before. */
  lemma PlainEra(s: State, a: Action)
    requires Inv(s) && Can(s, a) && Plain(a) && HasLogs(s, a.i) && !s.th[a.i].mon.Sweep?
    ensures Rec(s.th[a.i]).era < Own(Do(s, a), a.i) ==> Rec(s.th[a.i]).era < Own(s, a.i)
  {
    hide Inv, Newest, Can, Do;
    if a.AllocBump? {
      InAlloc(s, a);
      AllocIsClosed(s, a.i);
    } else if a.Record? {
      RecordEra(s, a);
    } else {
      OthersKeepEras(s, a);
    }
  }

  lemma InAlloc(s: State, a: Action)
    requires Can(s, a) && a.AllocBump?
    ensures a.i in s.th && Allocating(s.th[a.i])
  {
  }

  lemma RecordEra(s: State, a: Action)
    requires Inv(s) && Can(s, a) && a.Record?
    ensures Own(Do(s, a), a.i) == Own(s, a.i)
  {
    hide Inv;
    RegBound(s, a.i);
    assert Do(s, a).era == Observe(s.era, a.i, s.th[a.i].reg);
  }

  lemma RegBound(s: State, i: Tid)
    requires Inv(s) && CanRecord(s, i)
    ensures s.th[i].reg.cid == i ==> s.th[i].reg.era <= Own(s, i)
  {
    hide EffOk, Exclusive, CountOk, PoolOk, StampsOk, RowsOk, PubOk, OpOk, LogOk, MonOk, Newest, CommitOk, ReleaseOk;
    assert ThreadOk(s, i, s.th[i]);
  }

  lemma AllocIsClosed(s: State, i: Tid)
    requires Inv(s) && i in s.th && Allocating(s.th[i]) && HasLogs(s, i) && !s.th[i].mon.Sweep?
    ensures Rec(s.th[i]).era < Own(s, i)
  {
    hide EffOk, Exclusive, CountOk, PoolOk, StampsOk, RowsOk, PubOk, OpOk, RegOk, MonOk, Newest, CommitOk, ReleaseOk,
         ShapeT;
    var t := s.th[i];
    assert ThreadOk(s, i, t);
    var k :| 0 <= k < |t.logs| && t.logs[k] == Rec(t);
  }

  lemma PlainLooks(s: State, a: Action)
    requires Inv(s) && LooksCommitted(s, a.i) && Can(s, a) && Plain(a)
    ensures LooksCommitted(Do(s, a), a.i)
  {
    hide Inv, Can, Do, Newest, Evidence, CanRedo, DoRedo;
    var s', i := Do(s, a), a.i;
    PlainStep(s, a);
    WordsKept(s, a);
    forall j | j != i ensures EraAt(s'.era, j, i) == EraAt(s.era, j, i) {
      OthersRows(s, a, i, j);
    }
    if ClosedLink(s', i) {
      PlainEra(s, a);
      SameEvidence(s, s', i, Rec(s.th[i]).refed, Rec(s.th[i]).era);
    }
  }

  // ----- every run

  lemma KeepLooks(s: State, a: Action, i: Tid)
    requires Inv(s) && i in s.th && LooksCommitted(s, i) && Can(s, a)
    ensures i in Do(s, a).th && LooksCommitted(Do(s, a), i)
  {
    hide Inv, LooksCommitted, Can, Do;
    if a.i != i {
      OtherStep(s, a, i);
      OthersLook(s, a, i);
    } else {
      StillThere(s, a);
      match a
      case Bump(_) => BumpIs(s, a); BumpLooks(s, i);
      case CasOk(_) => WordLooks(s, a);
      case Free(_) => WordLooks(s, a);
      case AllocStamp(_) => WordLooks(s, a);
      case WriteLog(_) => LogLooks(s, a);
      case ClearLogs(_) => LogLooks(s, a);
      case _ => PlainLooks(s, a);
    }
  }

  lemma BumpIs(s: State, a: Action)
    requires Can(s, a) && a.Bump?
    ensures CanBump(s, a.i) && Do(s, a) == DoBump(s, a.i)
  {
  }

  lemma StillThere(s: State, a: Action)
    requires Can(s, a)
    ensures a.i in Do(s, a).th
  {
    if a.Redo? {
      hide CanRedo, DoRedo, Newest;
      RedoFrame(s, a.i);
    } else {
      hide Newest, Available, NotLinkedFrom, Calm, CanRedo, DoRedo;
    }
  }

  lemma {:induction false} RunLooks(s: State, run: seq<Action>, i: Tid)
    requires Inv(s) && i in s.th && LooksCommitted(s, i) && Legal(s, run)
    ensures i in Final(s, run).th && LooksCommitted(Final(s, run), i)
    decreases |run|
  {
    hide Inv, LooksCommitted, Can, Do, Calm;
    if run != [] {
      Keep(s, run[0]);
      KeepLooks(s, run[0], i);
      RunLooks(Do(s, run[0]), run[1..], i);
    }
  }

  /** In every run: as long as the newest record of a client is of a link, the monitor takes it for committed
      after the link was closed as it did before, whatever has become of the object and of the slot. So it
      would write the reference into the slot once more. */
  lemma ClosedLinkLooksCommitted(s0: State, run: seq<Action>, i: Tid)
    requires Init(s0) && Legal(s0, run) && ClosedLink(Final(s0, run), i)
    ensures Evidence(Final(s0, run), i, Rec(Final(s0, run).th[i]).refed, Rec(Final(s0, run).th[i]).era)
  {
    hide Legal, Final, Inv, Evidence, Newest;
    InitInv(s0);
    SameClients(s0, run, i);
    NoLinkYet(s0, i);
    RunLooks(s0, run, i);
  }

  lemma NoLinkYet(s: State, i: Tid)
    requires Init(s) && i in s.th
    ensures LooksCommitted(s, i)
  {
    hide Evidence, Newest;
    if HasLogs(s, i) {
      var t := s.th[i];
      var k :| 0 <= k < |t.logs| && t.logs[k] == Rec(t);
    }
  }

  lemma {:induction false} SameClients(s: State, run: seq<Action>, i: Tid)
    requires Legal(s, run) && i in Final(s, run).th
    ensures i in s.th
    decreases |run|
  {
    hide Can, Do, Calm;
    if run != [] {
      SameClients(Do(s, run[0]), run[1..], i);
      NoNewClient(s, run[0], i);
    }
  }

  lemma NoNewClient(s: State, a: Action, i: Tid)
    requires Can(s, a) && i in Do(s, a).th
    ensures i in s.th
  {
    if a.Redo? {
      hide CanRedo, DoRedo, Newest;
      RedoFrame(s, a.i);
    } else {
      hide Newest, Available, NotLinkedFrom, Calm, CanRedo, DoRedo;
    }
  }
}

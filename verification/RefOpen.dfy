/** The steps that open an operation keep the invariant. */
module RefOpen {
  import opened RefTypes
  import opened RefMachine
  import opened RefInvariant
  import opened RefSteps

  /** Nobody is between the two writes of a slot without operator, so its two values agree. */
  lemma Settled(s: State, r: Slot)
    requires EffOk(s) && Available(s, r) && r in s.slots && r in s.eff
    ensures s.eff[r] == s.slots[r]
  {
  }

  lemma OpenExclusive(s: State, s': State, i: Tid)
    requires Exclusive(s) && Stepped(s, s', i) && i in s'.th && !Responsible(s'.th[i])
    requires Available(s, s'.th[i].dst) && NotLinkedFrom(s, s'.th[i].dst)
    requires UsesSrc(s'.th[i]) ==> Available(s, s'.th[i].src)
    ensures Exclusive(s')
  {
    forall j, k | j in s'.th && k in s'.th && j != k ensures Apart(s'.th[j], s'.th[k]) {
      assert j in s.th.Keys && k in s.th.Keys;
      assert Apart(s.th[j], s.th[k]);
    }
  }

  /** An idle client has no record of its current era and has not published it. */
  lemma OpenLogs(s: State, i: Tid, t': Thread)
    requires i in s.th && s.th[i].pc.Idle? && ShapeT(s, s.th[i]) && LogOk(s, i, s.th[i])
    requires t'.logs == s.th[i].logs && t'.pc.Start? && t'.mon == s.th[i].mon
    requires t'.obj in s.words && t'.obj in s.ver && !t'.func.NoFunc?
    ensures ShapeT(SetThread(s, i, t'), t') && LogOk(SetThread(s, i, t'), i, t')
  {
    hide Newest;
    forall k | 0 <= k < |t'.logs| ensures LogShape(SetThread(s, i, t'), t'.logs[k]) {
      assert LogShape(s, s.th[i].logs[k]);
    }
  }

  lemma OpenStep(s: State, i: Tid, t': Thread)
    requires Inv(s) && Acting(s, i) && s.th[i].pc.Idle? && t'.pc.Start? && t'.mon == s.th[i].mon
    requires t'.logs == s.th[i].logs && !t'.func.NoFunc? && t'.obj in s.words && t'.dst in s.slots
    requires Available(s, t'.dst) && NotLinkedFrom(s, t'.dst)
    requires UsesSrc(t') ==> Available(s, t'.src)
    requires OpOk(SetThread(s, i, t'), t')
    ensures Inv(SetThread(s, i, t'))
  {
    hide EffOk, Exclusive, CountOk, StampsOk, RowsOk, PubOk, Rely, ThreadsOk, OpOk, ShapeT, LogOk, Available,
         NotLinkedFrom, Newest;
    var s' := SetThread(s, i, t');
    assert ThreadOk(s, i, s.th[i]) by { assert ThreadsOk(s); OneThread(s, i); }
    EffFrame(s, s', i);
    OpenExclusive(s, s', i);
    ErasFrame(s, s', i);
    CountFrame(s, s');
    OpenLogs(s, i, t');
    forall j | j in s.th && j != i ensures Rely(s, s', j, s.th[j]) {
      RegisterRely(s, i, t', j);
    }
    Compose(s, s', i);
  }

  lemma OneThread(s: State, i: Tid)
    requires ThreadsOk(s) && i in s.th
    ensures ThreadOk(s, i, s.th[i])
  {
  }

  lemma KeepBeginLink(s: State, i: Tid, dst: Slot, src: Slot)
    requires Inv(s) && CanBeginLink(s, i, dst, src)
    ensures Inv(DoBeginLink(s, i, dst, src))
  {
    hide Exclusive, CountOk, PoolOk, StampsOk, RowsOk, PubOk, ThreadsOk, Available, NotLinkedFrom, EffOk;
    Settled(s, dst);
    Settled(s, src);
    OpenStep(s, i, DoBeginLink(s, i, dst, src).th[i]);
  }

  lemma KeepBeginUnlink(s: State, i: Tid, dst: Slot)
    requires Inv(s) && CanBeginUnlink(s, i, dst)
    ensures Inv(DoBeginUnlink(s, i, dst))
  {
    hide Exclusive, CountOk, PoolOk, StampsOk, RowsOk, PubOk, ThreadsOk, Available, NotLinkedFrom, EffOk;
    Settled(s, dst);
    OpenStep(s, i, DoBeginUnlink(s, i, dst).th[i]);
  }
}

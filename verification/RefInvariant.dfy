/** The inductive invariant of the counted-reference protocol, by rely and guarantee. */
module RefInvariant {
  import opened RefTypes
  import opened RefMachine

  // ----- what holds of the shared state

  /** Committed but not yet visible in its slot, or a root slot set before its object is stamped. */
  predicate Pending(t: Thread) {
    t.pc.Committed? || Allocating(t)
  }

  ghost predicate Shape(s: State) {
    && (forall i :: i in s.th ==> 0 < i < MAX_THREAD)
    && 0 !in s.words && s.words.Keys == s.ver.Keys && s.slots.Keys == s.eff.Keys
    && s.pool <= s.words.Keys
    && (forall r :: r in s.slots ==> s.slots[r] == 0 || s.slots[r] in s.words)
  }

  /** A slot differs from its committed value only while its operator is between the two writes. */
  ghost predicate EffOk(s: State) {
    forall r :: r in s.slots && r in s.eff && s.eff[r] != s.slots[r] ==>
      exists i :: i in s.th && Pending(s.th[i]) && s.th[i].dst == r
  }

  /** Two clients: one operator per slot, a slot that is linked from is not operated on, and an
      object has one releaser. */
  ghost predicate Apart(t: Thread, u: Thread) {
    && (Active(t) && Active(u) ==> t.dst != u.dst)
    && (Active(t) && UsesSrc(u) ==> t.dst != u.src)
    && (Responsible(t) && Responsible(u) ==> t.obj != u.obj)
  }

  ghost predicate Exclusive(s: State) {
    forall i, j :: i in s.th && j in s.th && i != j ==> Apart(s.th[i], s.th[j])
  }

  /** Counts are exact with respect to the committed slot values. */
  ghost predicate CountOk(s: State) {
    forall o :: o in s.words ==> s.words[o].cnt == |Holders(s.eff, o)|
  }

  ghost predicate PoolOk(s: State) {
    forall o :: o in s.pool && o in s.words ==> s.words[o] == ZeroWord
  }

  /** A stamp of client c never exceeds c's own era, and equals it only between CAS and bump. */
  ghost predicate StampOk(s: State, o: Obj, w: Word) {
    && (w.cid == 0 ==> w == ZeroWord)
    && (w.cid != 0 ==>
          && w.cid in s.th && w.era <= Own(s, w.cid) && (w.cid, w.era) in s.pub
          && (w.era == Own(s, w.cid) ==>
                Published(s.th[w.cid]) && (s.th[w.cid].obj == o || s.th[w.cid].mon.Sweep?)))
  }

  ghost predicate StampsOk(s: State) {
    forall o :: o in s.words ==> StampOk(s, o, s.words[o])
  }

  ghost predicate RowOk(s: State, j: Tid, c: Tid) {
    EraAt(s.era, j, c) > 0 ==>
      && j in s.th && c in s.th && EraAt(s.era, j, c) <= Own(s, c)
      && (j != c ==> (c, EraAt(s.era, j, c)) in s.pub)
      && (j != c && EraAt(s.era, j, c) == Own(s, c) ==> Published(s.th[c]))
  }

  ghost predicate RowsOk(s: State) {
    && (forall c :: c in s.th ==> Own(s, c) > 0)
    && (forall j, c :: RowOk(s, j, c))
  }

  /** Published eras of c are below c's era, or equal to it between CAS and bump. */
  ghost predicate PubOk(s: State) {
    forall p :: p in s.pub ==>
      p.0 in s.th && p.1 <= Own(s, p.0) && (p.1 == Own(s, p.0) ==> Published(s.th[p.0]))
  }

  // ----- what holds of one client

  ghost predicate LogShape(s: State, l: RedoLog) {
    !l.func.NoFunc? ==> l.refed in s.words && l.ref in s.slots
  }

  ghost predicate ShapeT(s: State, t: Thread) {
    && |t.logs| == REDO_CACHELINE_CNT
    && (!t.pc.Idle? ==> t.obj in s.words && t.obj in s.ver)
    && (Trying(t) || Stamped(t) || t.pc.FreeDue? || t.pc.Aborted? ==> !t.func.NoFunc?)
    && (forall k :: 0 <= k < |t.logs| ==> LogShape(s, t.logs[k]))
  }

  /** The client's slots hold what its program counter says. */
  ghost predicate OpOk(s: State, t: Thread) {
    && (Active(t) ==> t.dst in s.slots && t.dst in s.eff)
    && (UsesSrc(t) ==> t.src in s.slots && t.src in s.eff && t.src != t.dst
                       && s.slots[t.src] == t.obj && s.eff[t.src] == t.obj)
    && (Trying(t) ==> s.eff[t.dst] == s.slots[t.dst])
    && (Trying(t) || t.pc.Committed? ==> s.slots[t.dst] == if t.func.LinkRef? then 0 else t.obj)
    && (t.pc.Written? ==> s.slots[t.dst] == Goal(t))
    && (Done(t) ==> s.eff[t.dst] == Goal(t))
    && (Allocating(t) ==> s.slots[t.dst] == t.obj && s.eff[t.dst] == 0)
  }

  predicate HasReg(t: Thread) {
    t.pc.Loaded? || t.pc.Recorded? || t.pc.Logged?
  }

  /** One era of client c may have been stamped by c and, after its recovery, by the monitor. */
  predicate Twice(s: State, c: Tid) {
    c in s.th && s.th[c].mon.Sweep? && s.th[c].mon.twice
  }

  /** What a client loaded is an earlier value of the word; an equal value is the same write, unless its
      stamp was published twice. */
  ghost predicate RegOk(s: State, i: Tid, t: Thread) {
    HasReg(t) && t.obj in s.words && t.obj in s.ver ==>
      && t.reg.cid in s.th && t.reg.era <= Own(s, t.reg.cid)
      && (t.reg.cid, t.reg.era) in s.pub
      && (t.reg.era == Own(s, t.reg.cid) ==> Published(s.th[t.reg.cid]))
      && t.regVer <= s.ver[t.obj]
      && (t.regVer == s.ver[t.obj] ==> t.reg == s.words[t.obj])
      && (t.reg == s.words[t.obj] ==> t.regVer == s.ver[t.obj] || Twice(s, t.reg.cid))
      && (!t.pc.Loaded? ==> EraAt(s.era, i, t.reg.cid) >= t.reg.era)
  }

  ghost predicate Carries(s: State, i: Tid, o: Obj, e: nat) {
    o in s.words && s.words[o].cid == i && s.words[o].era == e
  }

  ghost predicate SeenBy(s: State, j: Tid, i: Tid, e: nat) {
    j != i && EraAt(s.era, j, i) >= e
  }

  /** What the monitor looks for: the word still carries the stamp, or some other row has seen it. */
  ghost predicate Evidence(s: State, i: Tid, o: Obj, e: nat) {
    Carries(s, i, o, e) || exists j :: SeenBy(s, j, i, e)
  }

  ghost predicate CommitOk(s: State, i: Tid, t: Thread) {
    Stamped(t) && !t.mon.Sweep? ==> Evidence(s, i, t.obj, Own(s, i))
  }

  ghost predicate CurrentLog(t: Thread, l: RedoLog) {
    && (Trying(t) || Stamped(t) || t.pc.Aborted?)
    && l.func == t.func && l.ref == t.dst && l.refed == t.obj
  }

  ghost predicate LogOk(s: State, i: Tid, t: Thread) {
    && |t.logs| == REDO_CACHELINE_CNT
    && (!t.mon.Sweep? ==>
          && (forall k :: 0 <= k < REDO_CACHELINE_CNT ==>
                t.logs[k].era <= Own(s, i)
                && (t.logs[k].era == Own(s, i) ==> k == Own(s, i) % REDO_CACHELINE_CNT && CurrentLog(t, t.logs[k])))
          && (t.pc.Logged? || Done(t) ==> t.logs[Own(s, i) % REDO_CACHELINE_CNT].era == Own(s, i)))
    && (t.pc.Finished? || t.pc.Aborted? ==> t.mon.Recovered?)
    && (t.pc.AllocBumped? ==> Own(s, i) > 1 && (i, Own(s, i) - 1) !in s.pub)
  }

  ghost predicate ReleaseOk(s: State, i: Tid, t: Thread) {
    Responsible(t) && t.obj in s.words ==>
      && t.obj !in s.pool && s.words[t.obj].cnt == 0
      && s.words[t.obj].cid == (if Allocating(t) then 0 else i)
  }

  ghost predicate Unscanned(s: State, i: Tid, row: nat, e: nat) {
    exists j :: SeenBy(s, j, i, e) && row <= j
  }

  ghost predicate MonOk(s: State, i: Tid, t: Thread) {
    && (t.mon.Recovered? ==> !Trying(t) && !Done(t))
    && (t.mon.Sweep? ==>
          && !Allocating(t) && !t.pc.Finished? && !t.pc.Aborted?
          && (t.mon.again ==> t.mon.twice && (i, Own(s, i)) in s.pub))
    && (|t.logs| > 0 && Rec(t).era == Own(s, i) ==>
          var e := Own(s, i);
          match t.mon
          case CidRead(cid) => Carries(s, i, Rec(t).refed, e) ==> cid == i
          case Scan(row, max) =>
            && (max >= e ==> Done(t))
            && (Done(t) ==> Unscanned(s, i, row, e) || max >= e)
          case Grow(row, max) =>
            && row != i && EraAt(s.era, row, i) > max
            && (max >= e ==> Done(t))
            && (Done(t) ==> Unscanned(s, i, row, e) || max >= e)
          case Decided(need) => need <==> Done(t)
          case _ => true)
  }

  ghost predicate ThreadOk(s: State, i: Tid, t: Thread) {
    && ShapeT(s, t) && OpOk(s, t) && RegOk(s, i, t) && CommitOk(s, i, t)
    && LogOk(s, i, t) && ReleaseOk(s, i, t) && MonOk(s, i, t)
  }

  ghost predicate ThreadsOk(s: State) {
    forall i :: i in s.th ==> ThreadOk(s, i, s.th[i])
  }

  ghost predicate Inv(s: State) {
    && Shape(s) && EffOk(s) && Exclusive(s) && CountOk(s) && PoolOk(s)
    && StampsOk(s) && RowsOk(s) && PubOk(s)
    && ThreadsOk(s)
  }

  // ----- rely: what a client may assume of a step of another client

  ghost predicate RelyFrame(s: State, s': State) {
    && s'.words.Keys == s.words.Keys && s'.slots.Keys == s.slots.Keys
    && s'.ver.Keys == s.ver.Keys && s'.eff.Keys == s.eff.Keys && s'.th.Keys == s.th.Keys
    && s.pub <= s'.pub
  }

  ghost predicate RelySlots(s: State, s': State, t: Thread) {
    && (Active(t) && t.dst in s.slots && t.dst in s.eff ==>
          t.dst in s'.slots && t.dst in s'.eff
          && s'.slots[t.dst] == s.slots[t.dst] && s'.eff[t.dst] == s.eff[t.dst])
    && (UsesSrc(t) && t.src in s.slots && t.src in s.eff ==>
          t.src in s'.slots && t.src in s'.eff
          && s'.slots[t.src] == s.slots[t.src] && s'.eff[t.src] == s.eff[t.src])
  }

  /** Rows only grow; a client that has published stays so until its own era moves. */
  ghost predicate RelyEras(s: State, s': State, i: Tid) {
    && Own(s', i) == Own(s, i)
    && (forall j, c :: EraAt(s'.era, j, c) >= EraAt(s.era, j, c))
    && (forall c :: c in s.th && c in s'.th && Own(s', c) == Own(s, c) ==>
          (Published(s.th[c]) ==> Published(s'.th[c])))
    && (forall c :: Twice(s, c) ==> Twice(s', c))
    && (forall p :: p in s'.pub && p !in s.pub ==> p.0 != i)
  }

  /** Others never write client i's stamp; overwriting it leaves a row behind; a word is rewritten
      with a value that no client holds in its register. */
  ghost predicate RelyWords(s: State, s': State, i: Tid, t: Thread) {
    && (forall o :: o in s.words && o in s'.words ==> s'.words[o] == s.words[o] || s'.words[o].cid != i)
    && (t.obj in s.words && t.obj in s'.words && t.obj in s.ver && t.obj in s'.ver ==>
          && (Responsible(t) ==> s'.words[t.obj] == s.words[t.obj] && (t.obj !in s.pool ==> t.obj !in s'.pool))
          && (Published(t) && Carries(s, i, t.obj, Own(s, i)) ==> Evidence(s', i, t.obj, Own(s, i)))
          && (HasReg(t) ==>
                || (s'.words[t.obj] == s.words[t.obj] && s'.ver[t.obj] == s.ver[t.obj])
                || (s'.ver[t.obj] > s.ver[t.obj] && (s'.words[t.obj] != t.reg || Twice(s', t.reg.cid)))))
  }

  ghost predicate Rely(s: State, s': State, i: Tid, t: Thread) {
    RelyFrame(s, s') && RelySlots(s, s', t) && RelyEras(s, s', i) && RelyWords(s, s', i, t)
  }

  lemma StableShape(s: State, s': State, i: Tid, t: Thread)
    requires ShapeT(s, t) && Rely(s, s', i, t)
    ensures ShapeT(s', t)
  {
    forall k | 0 <= k < |t.logs| ensures LogShape(s', t.logs[k]) {
      assert LogShape(s, t.logs[k]);
    }
    assert forall o :: o in s.ver ==> o in s.ver.Keys;
  }

  lemma StableOp(s: State, s': State, i: Tid, t: Thread)
    requires OpOk(s, t) && Rely(s, s', i, t)
    ensures OpOk(s', t)
  {
  }

  lemma StableReg(s: State, s': State, i: Tid, t: Thread)
    requires RegOk(s, i, t) && Rely(s, s', i, t)
    ensures RegOk(s', i, t)
  {
    if HasReg(t) && t.obj in s'.words && t.obj in s'.ver {
      assert t.obj in s.words.Keys && t.obj in s.ver.Keys;
      assert t.reg.cid in s'.th.Keys;
    }
  }

  lemma StableCommit(s: State, s': State, i: Tid, t: Thread)
    requires ShapeT(s, t) && CommitOk(s, i, t) && Rely(s, s', i, t)
    ensures CommitOk(s', i, t)
  {
    if Stamped(t) && !t.mon.Sweep? && !Carries(s, i, t.obj, Own(s, i)) {
      var j :| SeenBy(s, j, i, Own(s, i));
      assert SeenBy(s', j, i, Own(s', i));
    } else if Stamped(t) && !t.mon.Sweep? {
      assert t.obj in s'.words.Keys && t.obj in s'.ver.Keys;
    }
  }

  lemma StableLog(s: State, s': State, i: Tid, t: Thread)
    requires LogOk(s, i, t) && Rely(s, s', i, t)
    ensures LogOk(s', i, t)
  {
  }

  lemma StableRelease(s: State, s': State, i: Tid, t: Thread)
    requires ShapeT(s, t) && ReleaseOk(s, i, t) && Rely(s, s', i, t)
    ensures ReleaseOk(s', i, t)
  {
    if Responsible(t) {
      assert t.obj in s'.words.Keys && t.obj in s'.ver.Keys;
    }
  }

  lemma StableMon(s: State, s': State, i: Tid, t: Thread)
    requires ShapeT(s, t) && MonOk(s, i, t) && Rely(s, s', i, t)
    ensures MonOk(s', i, t)
  {
    if t.mon.Scan? || t.mon.Grow? {
      if Unscanned(s, i, t.mon.row, Own(s, i)) {
        var j :| SeenBy(s, j, i, Own(s, i)) && t.mon.row <= j;
        assert SeenBy(s', j, i, Own(s, i));
      }
    }
    assert forall o :: o in s'.words ==> o in s.words.Keys;
  }

  lemma Stable(s: State, s': State, i: Tid, t: Thread)
    requires ThreadOk(s, i, t) && Rely(s, s', i, t)
    ensures ThreadOk(s', i, t)
  {
    StableShape(s, s', i, t);
    StableOp(s, s', i, t);
    StableReg(s, s', i, t);
    StableCommit(s, s', i, t);
    StableLog(s, s', i, t);
    StableRelease(s, s', i, t);
    StableMon(s, s', i, t);
  }
}

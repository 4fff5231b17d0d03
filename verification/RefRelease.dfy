/** ABA freedom and the release of dead objects. */
module RefRelease {
  import opened RefTypes
  import opened RefMachine
  import opened RefInvariant
  import opened RefSteps
  import opened RefUpdates
  import opened RefTheorems

  /** A compare-and-swap that succeeds has met the very write that was loaded; only where recovery has
      published a stamp a second time it may have met an equal word instead. */
  lemma NoAba(s0: State, run: seq<Action>, i: Tid)
    requires Init(s0) && Legal(s0, run) && CanCasOk(Final(s0, run), i)
    ensures var s := Final(s0, run); s.th[i].regVer == s.ver[s.th[i].obj] || Twice(s, s.th[i].reg.cid)
  {
    hide Init, Legal, StampsOk, RowsOk, CommitOk, OpOk, ShapeT, MonOk, LogOk, ReleaseOk;
    Reached(s0, run);
    Unpack(Final(s0, run), i);
  }

  /** The stamp a step puts on a word, if it puts one. */
  function NewStamp(s: State, a: Action): (Tid, int) {
    if a.CasOk? then (a.i, Own(s, a.i)) else (a.i, Own(s, a.i) - 1)
  }

  /** No client publishes a (client, era) stamp twice, by link, unlink or allocation. A stamp is repeated
      exactly when the monitor makes its first unlink for a client that stopped between CAS and bump. */
  lemma StampsAreFresh(s0: State, run: seq<Action>, a: Action)
    requires Init(s0) && Legal(s0, run) && Can(Final(s0, run), a) && (a.CasOk? || a.AllocStamp?)
    ensures NewStamp(Final(s0, run), a) in Final(s0, run).pub <==>
              Final(s0, run).th[a.i].mon.Sweep? && Final(s0, run).th[a.i].mon.again
    ensures Do(Final(s0, run), a).pub == Final(s0, run).pub + {NewStamp(Final(s0, run), a)}
  {
    hide Init, Legal, Inv;
    Reached(s0, run);
    FreshStamp(Final(s0, run), a);
  }

  lemma FreshStamp(s: State, a: Action)
    requires Inv(s) && Can(s, a) && (a.CasOk? || a.AllocStamp?)
    ensures NewStamp(s, a) in s.pub <==> s.th[a.i].mon.Sweep? && s.th[a.i].mon.again
    ensures Do(s, a).pub == s.pub + {NewStamp(s, a)}
  {
    hide EffOk, Exclusive, CountOk, PoolOk, StampsOk, RowsOk, RegOk, OpOk, ReleaseOk, CommitOk, ShapeT, Newest;
    assert ThreadOk(s, a.i, s.th[a.i]);
  }

  // ----- release

  /** Nobody works on the object but as an unlink past its CAS. */
  ghost predicate Unreferenced(s: State, o: Obj) {
    && (forall r :: r in s.eff ==> s.eff[r] != o)
    && (forall r :: r in s.slots && s.slots[r] == o ==>
          exists j :: j in s.th && s.th[j].pc.Committed? && !s.th[j].func.LinkRef? && s.th[j].dst == r)
    && (forall j :: j in s.th && s.th[j].obj == o ==>
          !Trying(s.th[j]) && !(Done(s.th[j]) && s.th[j].func.LinkRef?))
  }

  /** When a client is about to release an object, nothing refers to it: no slot has it as committed
      value, a slot that still shows it is waiting for an unlink past its CAS, nobody is linking or
      unlinking it, it is not free already, and nobody else will release it. */
  lemma ReleaseIsSafe(s0: State, run: seq<Action>, i: Tid)
    requires Init(s0) && Legal(s0, run) && CanFree(Final(s0, run), i)
    ensures var s := Final(s0, run);
            var o := s.th[i].obj;
            && Unreferenced(s, o) && o !in s.pool
            && (forall j :: CanFree(s, j) && s.th[j].obj == o ==> j == i)
  {
    hide Init, Legal, Inv, Unreferenced;
    Reached(s0, run);
    SafeToFree(Final(s0, run), i);
  }

  lemma NoHolder(m: map<Slot, Obj>, o: Obj)
    requires |Holders(m, o)| == 0
    ensures forall r :: r in m ==> m[r] != o
  {
    forall r | r in m ensures m[r] != o {
      assert r !in Holders(m, o);
    }
  }

  lemma SafeToFree(s: State, i: Tid)
    requires Inv(s) && CanFree(s, i)
    ensures Unreferenced(s, s.th[i].obj) && s.th[i].obj !in s.pool
    ensures forall j :: CanFree(s, j) && s.th[j].obj == s.th[i].obj ==> j == i
  {
    hide StampsOk, RowsOk, PubOk, PoolOk, Exclusive, ShapeT, RegOk, CommitOk, LogOk, MonOk, Newest, Unreferenced,
         Holders;
    var o := s.th[i].obj;
    assert ThreadOk(s, i, s.th[i]);
    NoHolder(s.eff, o);
    forall j | j in s.th ensures OpOk(s, s.th[j]) && (s.th[j].obj == o ==> !Trying(s.th[j])) {
      assert ThreadOk(s, j, s.th[j]);
      if Trying(s.th[j]) {
        NoReleaser(s, j, i);
      }
    }
    UnreferencedBy(s, o);
    forall j | CanFree(s, j) && s.th[j].obj == o ensures j == i {
      if j != i {
        TwoApart(s, i, j);
      }
    }
  }

  lemma UnreferencedBy(s: State, o: Obj)
    requires EffOk(s) && s.slots.Keys == s.eff.Keys && o != 0
    requires forall r :: r in s.eff ==> s.eff[r] != o
    requires forall j :: j in s.th ==> OpOk(s, s.th[j])
    requires forall j :: j in s.th && s.th[j].obj == o ==> !Trying(s.th[j]) && !Allocating(s.th[j])
    ensures Unreferenced(s, o)
  {
    forall r | r in s.slots && s.slots[r] == o
      ensures exists j :: j in s.th && s.th[j].pc.Committed? && !s.th[j].func.LinkRef? && s.th[j].dst == r
    {
      assert r in s.eff.Keys;
      var j :| j in s.th && Pending(s.th[j]) && s.th[j].dst == r;
    }
  }

  // ----- no object is lost

  ghost predicate InCharge(s: State, i: Tid, o: Obj) {
    i in s.th && s.th[i].obj == o && Responsible(s.th[i])
  }

  /** An object without count is free, or left to the search for leaked blocks, or some client (running,
      crashed or recovered) is in charge of it. */
  ghost predicate NoneLost(s: State) {
    forall o :: o in s.words && s.words[o].cnt == 0 && o !in s.pool && o !in s.left ==> exists i :: InCharge(s, i, o)
  }

  /** A step that spares the words and keeps its client in charge of what it was in charge of. */
  lemma ChargeFrame(s: State, s': State, i: Tid)
    requires NoneLost(s) && Stepped(s, s', i) && s'.words == s.words && s'.pool == s.pool && s.left <= s'.left
    requires forall o :: InCharge(s, i, o) ==> InCharge(s', i, o) || o in s'.left
    ensures NoneLost(s')
  {
    forall o | o in s'.words && s'.words[o].cnt == 0 && o !in s'.pool && o !in s'.left
      ensures exists j :: InCharge(s', j, o)
    {
      var j :| InCharge(s, j, o);
      assert InCharge(s', j, o);
    }
  }

  /** A step on one object: every other object keeps its word, its place and its client. */
  lemma ChargeOne(s: State, s': State, i: Tid, x: Obj)
    requires NoneLost(s) && Stepped(s, s', i) && s'.left == s.left
    requires forall o :: o in s'.words && o != x ==> o in s.words && s'.words[o] == s.words[o]
    requires forall o :: o in s.pool && o != x ==> o in s'.pool
    requires forall o :: o != x ==> !InCharge(s, i, o)
    requires x in s'.words && s'.words[x].cnt == 0 && x !in s'.pool ==> InCharge(s', i, x)
    ensures NoneLost(s')
  {
    forall o | o in s'.words && s'.words[o].cnt == 0 && o !in s'.pool && o !in s'.left
      ensures exists j :: InCharge(s', j, o)
    {
      if o != x {
        var j :| InCharge(s, j, o);
        assert InCharge(s', j, o);
      }
    }
  }

  lemma ChargeOpen(s: State, a: Action)
    requires NoneLost(s) && Can(s, a)
    requires a.BeginLink? || a.BeginUnlink? || a.Load? || a.Record?
    ensures NoneLost(Do(s, a))
  {
    hide Newest, Available, NotLinkedFrom, NoneLost;
    var s' := Do(s, a);
    ChargeFrame(s, s', a.i);
  }

  lemma ChargeTry(s: State, a: Action)
    requires NoneLost(s) && Can(s, a)
    requires a.WriteLog? || a.Skip? || a.CasFail? || a.ClearLogs? || a.Crash? || a.StartSweep?
    ensures NoneLost(Do(s, a))
  {
    hide Newest, Available, NotLinkedFrom, NoneLost;
    var s' := Do(s, a);
    ChargeFrame(s, s', a.i);
  }

  lemma ChargeClose(s: State, a: Action)
    requires NoneLost(s) && Can(s, a)
    requires a.WriteSlot? || a.Bump? || a.AllocBump?
    ensures NoneLost(Do(s, a))
  {
    hide Newest, Available, NotLinkedFrom, NoneLost;
    var s' := Do(s, a);
    ChargeFrame(s, s', a.i);
  }

  lemma ChargeWord(s: State, a: Action)
    requires NoneLost(s) && Can(s, a)
    requires a.CasOk? || a.Free? || a.AllocStamp?
    ensures NoneLost(Do(s, a))
  {
    hide Newest, Available, NotLinkedFrom, NoneLost;
    var s' := Do(s, a);
    ChargeOne(s, s', a.i, s.th[a.i].obj);
  }

  lemma ChargeAlloc(s: State, a: Action)
    requires NoneLost(s) && Can(s, a)
    requires a.BeginAlloc?
    ensures NoneLost(Do(s, a))
  {
    hide Newest, Available, NotLinkedFrom, NoneLost;
    var s' := Do(s, a);
    ChargeOne(s, s', a.i, a.o);
  }

  lemma ChargeRedo(s: State, a: Action)
    requires NoneLost(s) && Can(s, a) && a.Redo?
    ensures NoneLost(Do(s, a))
  {
    hide Newest, NoneLost, InCharge;
    var s', t := Do(s, a), s.th[a.i];
    RedoFrame(s, a.i);
    forall o | InCharge(s, a.i, o) ensures InCharge(s', a.i, o) {
      ChargeKept(s, s', a.i, o);
    }
    ChargeFrame(s, s', a.i);
  }

  /** The monitor touches its phase; its last access may close the operation and write one slot. */
  ghost predicate MonitorOnly(s: State, s': State, i: Tid)
    requires i in s.th
  {
    && Stepped(s, s', i) && i in s'.th && s'.words == s.words && s'.pool == s.pool && s'.left == s.left
    && s'.th[i] == s.th[i].(pc := s'.th[i].pc, mon := s'.th[i].mon)
    && (s'.th[i].pc == s.th[i].pc || (Done(s.th[i]) && s'.th[i].pc.Finished?)
       || (Trying(s.th[i]) && s'.th[i].pc.Aborted?))
  }

  lemma PhaseFrame(s: State, i: Tid, m: Mon)
    requires i in s.th
    ensures MonitorOnly(s, SetThread(s, i, s.th[i].(mon := m)), i)
  {
  }

  lemma RedoFrame(s: State, i: Tid)
    requires CanRedo(s, i)
    ensures MonitorOnly(s, DoRedo(s, i), i)
  {
    hide MonitorOnly, Newest;
    var s' := DoRedo(s, i);
    if s.th[i].mon.Decided? {
      ReplayFrame(s, i);
    } else {
      PhaseFrame(s, i, s'.th[i].mon);
    }
  }

  lemma ReplayFrame(s: State, i: Tid)
    requires CanReplay(s, i)
    ensures MonitorOnly(s, DoReplay(s, i), i)
  {
    hide Newest;
  }

  lemma ChargeKept(s: State, s': State, i: Tid, o: Obj)
    requires InCharge(s, i, o) && i in s'.th
    requires s'.th[i] == s.th[i].(pc := s'.th[i].pc, mon := s'.th[i].mon)
    requires s'.th[i].pc == s.th[i].pc || (Done(s.th[i]) && s'.th[i].pc.Finished?) || Trying(s.th[i])
    ensures InCharge(s', i, o)
  {
  }

  lemma KeepNoneLost(s: State, a: Action)
    requires NoneLost(s) && Can(s, a)
    ensures NoneLost(Do(s, a))
  {
    hide NoneLost, Can, Do;
    match a
    case BeginLink(_, _, _) => ChargeOpen(s, a);
    case BeginUnlink(_, _) => ChargeOpen(s, a);
    case Load(_) => ChargeOpen(s, a);
    case Record(_) => ChargeOpen(s, a);
    case CasOk(_) => ChargeWord(s, a);
    case WriteSlot(_) => ChargeClose(s, a);
    case Bump(_) => ChargeClose(s, a);
    case Free(_) => ChargeWord(s, a);
    case BeginAlloc(_, _, _) => ChargeAlloc(s, a);
    case AllocBump(_) => ChargeClose(s, a);
    case AllocStamp(_) => ChargeWord(s, a);
    case Redo(_) => ChargeRedo(s, a);
    case _ => ChargeTry(s, a);
  }

  /** In every run the count of an object reaches 0 only for a client that is then in charge of it,
      and it stays in that client's charge until it is free. */
  lemma {:induction false} NothingLost(s: State, run: seq<Action>)
    requires NoneLost(s) && Legal(s, run)
    ensures NoneLost(Final(s, run))
    decreases |run|
  {
    hide NoneLost, Can, Do, Calm;
    if run != [] {
      KeepNoneLost(s, run[0]);
      NothingLost(Do(s, run[0]), run[1..]);
    }
  }

  // ----- what recovery leaves behind

  /** An object left to the search for leaked blocks has no count, is not free, and is nobody's business. */
  ghost predicate LeftOk(s: State) {
    forall o :: o in s.left ==>
      && o in s.words && s.words[o].cnt == 0 && o !in s.pool
      && forall j :: j in s.th && Responsible(s.th[j]) ==> s.th[j].obj != o
  }

  /** A step that spares the words of these objects and makes its client responsible for none of them. */
  lemma LeftFrame(s: State, s': State, i: Tid)
    requires LeftOk(s) && Stepped(s, s', i) && i in s'.th && s'.left == s.left
    requires forall o :: o in s.left ==> o in s'.words && s'.words[o].cnt == s.words[o].cnt && o !in s'.pool
    requires Responsible(s'.th[i]) && s'.th[i].obj in s.left ==> Responsible(s.th[i]) && s.th[i].obj == s'.th[i].obj
    ensures LeftOk(s')
  {
    forall o, j | o in s'.left && j in s'.th && Responsible(s'.th[j]) ensures s'.th[j].obj != o {
      assert j in s.th.Keys;
    }
  }

  lemma LeftOpen(s: State, a: Action)
    requires LeftOk(s) && Can(s, a)
    requires a.BeginLink? || a.BeginUnlink? || a.Load? || a.Record?
    ensures LeftOk(Do(s, a))
  {
    hide Newest, Available, NotLinkedFrom, LeftOk;
    LeftFacts(s);
    LeftFrame(s, Do(s, a), a.i);
  }

  lemma LeftTry(s: State, a: Action)
    requires LeftOk(s) && Can(s, a) && (a.WriteLog? || a.Skip? || a.CasFail?)
    ensures LeftOk(Do(s, a))
  {
    hide Newest, LeftOk;
    LeftFacts(s);
    LeftFrame(s, Do(s, a), a.i);
  }

  lemma LeftFacts(s: State)
    requires LeftOk(s)
    ensures forall o :: o in s.left ==> o in s.words && o !in s.pool && s.words[o].cnt == 0
  {
  }

  lemma LeftClose(s: State, a: Action)
    requires LeftOk(s) && Can(s, a)
    requires a.WriteSlot? || a.Bump? || a.AllocBump? || a.ClearLogs? || a.Crash?
    ensures LeftOk(Do(s, a))
  {
    hide Newest, LeftOk;
    LeftFacts(s);
    LeftFrame(s, Do(s, a), a.i);
  }

  /** An update of a word meets an object that has a count, or that its client is in charge of. */
  lemma LeftWord(s: State, a: Action)
    requires LeftOk(s) && Inv(s) && Can(s, a) && (a.CasOk? || a.Free? || a.AllocStamp? || a.BeginAlloc?)
    ensures LeftOk(Do(s, a))
  {
    hide Newest, Inv, Available, NotLinkedFrom;
    if a.CasOk? {
      Alive(s, a.i);
    }
    LeftFrame(s, Do(s, a), a.i);
  }

  lemma LeftRedo(s: State, a: Action)
    requires LeftOk(s) && Can(s, a) && a.Redo?
    ensures LeftOk(Do(s, a))
  {
    hide Newest, LeftOk, CanRedo, DoRedo;
    LeftFacts(s);
    RedoFrame(s, a.i);
    LeftFrame(s, Do(s, a), a.i);
  }

  lemma LeftSweep(s: State, i: Tid)
    requires LeftOk(s) && Inv(s) && CanStartSweep(s, i)
    ensures LeftOk(DoStartSweep(s, i))
  {
    hide EffOk, CountOk, PoolOk, StampsOk, RowsOk, PubOk, RegOk, OpOk, MonOk, CommitOk, LogOk, Newest;
    var t, s' := s.th[i], DoStartSweep(s, i);
    assert ThreadOk(s, i, t);
    forall o, j | o in s'.left && j in s'.th && Responsible(s'.th[j]) ensures s'.th[j].obj != o {
      assert j in s.th.Keys;
      if j != i {
        TwoApart(s, i, j);
      }
    }
  }

  lemma KeepLeft(s: State, a: Action)
    requires LeftOk(s) && Inv(s) && Can(s, a)
    ensures LeftOk(Do(s, a))
  {
    hide LeftOk, Inv, CanRedo, DoRedo;
    match a
    case CasOk(_) => LeftWord(s, a);
    case Free(_) => LeftWord(s, a);
    case AllocStamp(_) => LeftWord(s, a);
    case BeginAlloc(_, _, _) => LeftWord(s, a);
    case WriteSlot(_) => LeftClose(s, a);
    case Bump(_) => LeftClose(s, a);
    case AllocBump(_) => LeftClose(s, a);
    case ClearLogs(_) => LeftClose(s, a);
    case Crash(_) => LeftClose(s, a);
    case Redo(_) => LeftRedo(s, a);
    case StartSweep(i) => LeftSweep(s, i);
    case WriteLog(_) => LeftTry(s, a);
    case Skip(_) => LeftTry(s, a);
    case CasFail(_) => LeftTry(s, a);
    case _ => LeftOpen(s, a);
  }

  lemma {:induction false} LeftRun(s: State, run: seq<Action>)
    requires LeftOk(s) && Inv(s) && Legal(s, run)
    ensures LeftOk(Final(s, run))
    decreases |run|
  {
    hide LeftOk, Inv, Can, Do, Calm;
    if run != [] {
      Keep(s, run[0]);
      KeepLeft(s, run[0]);
      LeftRun(Do(s, run[0]), run[1..]);
    }
  }

  /** What recovery leaves to the search for leaked blocks is dead for good: in every run such an object
      has no count, no slot has it as committed value, it is not free, and nobody will release or stamp it. */
  lemma LeftIsDead(s0: State, run: seq<Action>, o: Obj)
    requires Init(s0) && Legal(s0, run) && o in Final(s0, run).left
    ensures var s := Final(s0, run);
            && o in s.words && s.words[o].cnt == 0 && o !in s.pool
            && (forall r :: r in s.eff ==> s.eff[r] != o)
            && (forall j :: j in s.th && Responsible(s.th[j]) ==> s.th[j].obj != o)
  {
    hide Inv, Legal, Final;
    InitInv(s0);
    assert LeftOk(s0);
    Reached(s0, run);
    LeftRun(s0, run);
    NoCommittedHolder(Final(s0, run), o);
  }

  lemma NoCommittedHolder(s: State, o: Obj)
    requires Inv(s) && o in s.words && s.words[o].cnt == 0
    ensures forall r :: r in s.eff ==> s.eff[r] != o
  {
    hide EffOk, Exclusive, PoolOk, StampsOk, RowsOk, PubOk, ThreadsOk, Holders;
    NoHolder(s.eff, o);
  }
}
